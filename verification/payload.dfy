/** The payload carried by a scanned QR code and the scanner's check of its
    format (`validateScannedData` in Frontend/app/QRScanner.jsx). */
module ScanPayload {

  import opened Wrappers
  import opened Json

  /** The three string fields a scanned code must carry. */
  datatype Payload = Payload(senderId: string, recipientId: string, aidType: string)

  /** The members `validateScannedData` tests, in the order it tests them. */
  const RequiredKeys: seq<string> := ["senderId", "recipientId", "aidType"]

  /** `v` is an object whose member `key` is a JSON string. */
  predicate HasStringField(v: Json, key: string) {
    v.JObj? && key in v.fields && v.fields[key].JStr?
  }

  /** The accepted shape, stated directly: an object with the three members,
      all strings. Any further members are ignored. */
  function Decode(v: Json): (r: Option<Payload>)
    ensures r.Some? <==> HasStringField(v, "senderId") && HasStringField(v, "recipientId") && HasStringField(v, "aidType")
    ensures r.Some? ==> && v.fields["senderId"] == JStr(r.value.senderId)
                        && v.fields["recipientId"] == JStr(r.value.recipientId)
                        && v.fields["aidType"] == JStr(r.value.aidType)
  {
    if HasStringField(v, "senderId") && HasStringField(v, "recipientId") && HasStringField(v, "aidType")
    then Some(Payload(v.fields["senderId"].s, v.fields["recipientId"].s, v.fields["aidType"].s))
    else None
  }

  /** The canonical JSON form of a payload, as a QR generator would write it. */
  function Encode(p: Payload): Json {
    JObj(map["senderId" := JStr(p.senderId), "recipientId" := JStr(p.recipientId), "aidType" := JStr(p.aidType)])
  }

  /** Decoding an encoded payload gives it back, and members other than the
      three required ones do not affect the result. */
  lemma DecodeEncode(p: Payload, extra: map<string, Json>)
    ensures Decode(Encode(p)) == Some(p)
    ensures Decode(JObj(extra + Encode(p).fields)) == Some(p)
  {
  }

  /** JavaScript's evaluation of
        typeof v[keys[0]] === "string" && typeof v[keys[1]] === "string" && ...
      left to right with short-circuiting. `None` means a member read threw,
      which happens when `v` is `null` and there is something to read. */
  function AllStringMembers(v: Json, keys: seq<string>): (r: Option<bool>)
    ensures r.None? <==> v.JNull? && keys != []
    ensures r == Some(true) <==> forall i :: 0 <= i < |keys| ==> HasStringField(v, keys[i])
    decreases |keys|
  {
    if keys == [] then Some(true)
    else
      match GetMember(v, keys[0])
      case None => None
      case Some(x) =>
        if TypeOf(x) == "string" then AllStringMembers(v, keys[1..]) else Some(false)
  }

  /** `validateScannedData`: parse the scanned text and test the three
      members. An exception from the parser or from a member read is caught
      and reported as `false`. The result is true exactly when the text
      parses to an object whose `senderId`, `recipientId` and `aidType`
      are strings. */
  function ValidateScannedData(parse: Parser, data: string): (r: bool)
    ensures r <==> && parse(data).Some?
                   && HasStringField(parse(data).value, "senderId")
                   && HasStringField(parse(data).value, "recipientId")
                   && HasStringField(parse(data).value, "aidType")
    ensures r <==> parse(data).Some? && Decode(parse(data).value).Some?
    ensures parse(data) == Some(JNull) ==> !r
  {
    match parse(data)
    case None => false
    case Some(v) =>
      var checked := AllStringMembers(v, RequiredKeys);
      checked == Some(true)
  }

  /** The payload of text that passed validation: what the screen reads
      back with `JSON.parse(data).senderId` and the like. Each of those reads
      succeeds and gives a string, the payload's field. */
  function PayloadOf(parse: Parser, data: string): (p: Payload)
    requires ValidateScannedData(parse, data)
    ensures parse(data).Some?
    ensures GetMember(parse(data).value, "senderId") == Some(Defined(JStr(p.senderId)))
    ensures GetMember(parse(data).value, "recipientId") == Some(Defined(JStr(p.recipientId)))
    ensures GetMember(parse(data).value, "aidType") == Some(Defined(JStr(p.aidType)))
  {
    Decode(parse(data).value).value
  }
}
