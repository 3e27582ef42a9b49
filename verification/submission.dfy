/** The submission request of `uploadData` (Frontend/app/QRScanner.jsx):
    the body it posts, the outcomes the location service and the endpoint
    can produce, and how each outcome settles the attempt. */
module Submission {

  import opened Wrappers
  import opened Json
  import opened ScanPayload

  /** A device position; the platform reports floating-point degrees. */
  datatype Location = Location(latitude: real, longitude: real)

  /** What the endpoint is told: the key, the scanned payload and where. */
  datatype Request = Request(privateKey: string, payload: Payload, location: Location)

  function LocationJson(l: Location): Json {
    JObj(map["latitude" := JNum(l.latitude), "longitude" := JNum(l.longitude)])
  }

  /** The request body. The scanned members are renamed: `senderId` is sent
      as `senderID` and `recipientId` as `recipientID`. */
  function RequestJson(r: Request): Json {
    JObj(map[
      "privateKey" := JStr(r.privateKey),
      "senderID" := JStr(r.payload.senderId),
      "recipientID" := JStr(r.payload.recipientId),
      "aidType" := JStr(r.payload.aidType),
      "location" := LocationJson(r.location)])
  }

  function DecodeLocation(v: Json): (r: Option<Location>)
    ensures r.Some? ==> && v.JObj?
                        && "latitude" in v.fields && v.fields["latitude"] == JNum(r.value.latitude)
                        && "longitude" in v.fields && v.fields["longitude"] == JNum(r.value.longitude)
  {
    if v.JObj? && "latitude" in v.fields && v.fields["latitude"].JNum?
       && "longitude" in v.fields && v.fields["longitude"].JNum?
    then Some(Location(v.fields["latitude"].n, v.fields["longitude"].n))
    else None
  }

  /** How the endpoint reads a body back. */
  function DecodeRequest(v: Json): (r: Option<Request>)
    ensures r.Some? ==> && HasStringField(v, "privateKey") && v.fields["privateKey"].s == r.value.privateKey
                        && HasStringField(v, "senderID") && v.fields["senderID"].s == r.value.payload.senderId
                        && HasStringField(v, "recipientID") && v.fields["recipientID"].s == r.value.payload.recipientId
                        && HasStringField(v, "aidType") && v.fields["aidType"].s == r.value.payload.aidType
                        && "location" in v.fields && DecodeLocation(v.fields["location"]) == Some(r.value.location)
  {
    if && v.JObj?
       && HasStringField(v, "privateKey")
       && HasStringField(v, "senderID")
       && HasStringField(v, "recipientID")
       && HasStringField(v, "aidType")
       && "location" in v.fields
       && DecodeLocation(v.fields["location"]).Some?
    then
      var m := v.fields;
      Some(Request(m["privateKey"].s,
                   Payload(m["senderID"].s, m["recipientID"].s, m["aidType"].s),
                   DecodeLocation(m["location"]).value))
    else None
  }

  /** The body carries everything the request holds: reading it back gives
      the same key, payload and location. */
  lemma RequestRoundTrip(r: Request)
    ensures DecodeRequest(RequestJson(r)) == Some(r)
  {
  }

  /** The contribution of `key: x` in an object literal once it goes through
      `JSON.stringify`: a member whose value is `undefined` is dropped. */
  function Member(key: string, x: JsValue): (m: map<string, Json>)
    ensures GetMember(JObj(m), key) == Some(x)
    ensures m.Keys <= {key}
  {
    match x
    case Undefined => map[]
    case Defined(j) =>
      var m := map[key := j];
      assert key in m;
      m
  }

  /** The value handed to `JSON.stringify` at lines 112-118, or `None` when
      building it throws: the text does not parse, or it parses to `null`
      and reading `.senderId` from it fails. `JSON.parse` is applied to the
      same text three times; as a function of the text it gives the same
      value each time, so it is applied once here. For validated text the
      body is exactly the request body of the key, the payload and the
      location. */
  function BuildBody(parse: Parser, data: string, key: string, loc: Location): (r: Option<Json>)
    ensures r.None? <==> parse(data).None? || parse(data) == Some(JNull)
    ensures r.Some? ==> && r.value.JObj?
                        && "privateKey" in r.value.fields && r.value.fields["privateKey"] == JStr(key)
                        && "location" in r.value.fields && r.value.fields["location"] == LocationJson(loc)
    // whatever the text holds, each renamed member reads back as the scanned
    // member did, so an absent one stays absent, and nothing else is added
    ensures r.Some? ==> && GetMember(r.value, "senderID") == GetMember(parse(data).value, "senderId")
                        && GetMember(r.value, "recipientID") == GetMember(parse(data).value, "recipientId")
                        && GetMember(r.value, "aidType") == GetMember(parse(data).value, "aidType")
                        && r.value.fields.Keys <= {"privateKey", "senderID", "recipientID", "aidType", "location"}
    ensures ValidateScannedData(parse, data) ==>
              r == Some(RequestJson(Request(key, PayloadOf(parse, data), loc)))
  {
    match parse(data)
    case None => None
    case Some(v) =>
      match (GetMember(v, "senderId"), GetMember(v, "recipientId"), GetMember(v, "aidType"))
      case (Some(a), Some(b), Some(c)) =>
        var fields := map["privateKey" := JStr(key)]
                      + Member("senderID", a) + Member("recipientID", b) + Member("aidType", c)
                      + map["location" := LocationJson(loc)];
        assert ValidateScannedData(parse, data) ==>
                 fields == RequestJson(Request(key, PayloadOf(parse, data), loc)).fields;
        Some(JObj(fields))
      case _ => None
  }

  /** What the endpoint's answer turned out to be. `FetchFailed` covers a
      rejected `fetch` and a body that `response.json()` cannot parse. */
  datatype Reply = FetchFailed | Replied(body: Json)

  /** What the environment does during one upload attempt: the location
      permission is refused, the permission request or the position fix
      fails, or a position is obtained and the endpoint is contacted. */
  datatype Outcome = PermissionDenied | LocationFailed | Located(location: Location, reply: Reply)

  /** `if (!data.ok) throw ...`: a reply is accepted exactly when reading its
      `ok` member does not throw and gives a truthy value. */
  function Accepted(body: Json): (r: bool)
    ensures r <==> body.JObj? && "ok" in body.fields && Truthy(Defined(body.fields["ok"]))
    ensures body.JObj? && "ok" in body.fields && body.fields["ok"] == JBool(false) ==> !r
  {
    match GetMember(body, "ok")
    case None => false
    case Some(x) => Truthy(x)
  }

  /** How one attempt ends: the body posted, if any, and whether the entry
      was added (the success alert) rather than failed (the error alert). */
  datatype Settlement = Settlement(sent: Option<Json>, added: bool)

  /** The `try`/`catch` of `uploadData` (lines 93-131) for the text and key
      captured when the button was pressed. Every exception ends in the
      failure alert; none escapes. */
  function Settle(parse: Parser, data: string, key: string, outcome: Outcome): (r: Settlement)
    ensures !outcome.Located? ==> r.sent.None? && !r.added
    ensures r.sent.Some? <==> outcome.Located? && BuildBody(parse, data, key, outcome.location).Some?
    ensures r.sent.Some? ==> r.sent == BuildBody(parse, data, key, outcome.location)
    ensures r.added <==> r.sent.Some? && outcome.reply.Replied? && Accepted(outcome.reply.body)
    ensures outcome.Located? && ValidateScannedData(parse, data) ==>
              r.sent == Some(RequestJson(Request(key, PayloadOf(parse, data), outcome.location)))
  {
    match outcome
    case PermissionDenied => Settlement(None, false)
    case LocationFailed => Settlement(None, false)
    case Located(loc, reply) =>
      match BuildBody(parse, data, key, loc)
      case None => Settlement(None, false)
      case Some(body) =>
        match reply
        case FetchFailed => Settlement(Some(body), false)
        case Replied(answer) => Settlement(Some(body), Accepted(answer))
  }
}
