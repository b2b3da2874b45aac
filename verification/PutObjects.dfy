/** endpoints/put.go: validation and formatting of one element of a POST. */
module PutObjects {
  import opened Basics
  import opened Errors
  import JsonString

  // value is the raw JSON text; it is empty when the field is missing.
  datatype PutObject = PutObject(kind: Bytes, ttlSeconds: int, value: Bytes, key: Bytes)

  function UnescapeXML(raw: Bytes): Result<Bytes, GoError>
    requires raw != []
  {
    if raw[0] != JsonString.QUOTE || raw[|raw| - 1] != JsonString.QUOTE then Err(Fail(MALFORMED_XML))
    else
      match JsonString.Unmarshal(raw)
      case None => Err(Fail(MALFORMED_XML))
      case Some(interpreted) => Ok(interpreted)
  }

  function ParsePutObject(p: PutObject): (r: Result<Bytes, GoError>)
    ensures r.Err? ==> IsPbc(r.error) && r.error.pbc.statusCode == 400
  {
    if p.value == [] then Err(Fail(MISSING_VALUE))
    else if p.ttlSeconds < 0 then Err(Fail(NEGATIVE_TTL))
    else if p.kind == XML_PREFIX then
      match UnescapeXML(p.value)
      case Err(e) => Err(e)
      case Ok(interpreted) => Ok(p.kind + interpreted)
    else if p.kind == JSON_PREFIX then Ok(p.kind + p.value)
    else Err(Fail(UNSUPPORTED_DATA_TO_STORE))
  }

  // What a reader of a well-formed element is owed: the text of the XML string, or the JSON itself.
  function Payload(p: PutObject): Option<Bytes> {
    if p.value == [] || p.ttlSeconds < 0 then None
    else if p.kind == JSON_PREFIX then Some(p.value)
    else if p.kind == XML_PREFIX && |p.value| >= 2
            && p.value[0] == JsonString.QUOTE && p.value[|p.value| - 1] == JsonString.QUOTE
            && JsonString.Scan(p.value[1..|p.value| - 1])
    then Some(JsonString.Decode(p.value[1..|p.value| - 1]))
    else None
  }

  // Exactly one stored form per well-formed element: its type, then its payload, and no confusion of the two types.
  lemma StoredForm(p: PutObject)
    ensures ParsePutObject(p).Ok? <==> Payload(p).Some?
    ensures ParsePutObject(p).Ok? ==> ParsePutObject(p).value == p.kind + Payload(p).value
    ensures ParsePutObject(p).Ok? ==> |ParsePutObject(p).value| >= 3 && (p.kind == XML_PREFIX || p.kind == JSON_PREFIX)
    ensures ParsePutObject(p).Ok? ==> (XML_PREFIX <= ParsePutObject(p).value <==> p.kind == XML_PREFIX)
    ensures ParsePutObject(p).Ok? ==> (JSON_PREFIX <= ParsePutObject(p).value <==> p.kind == JSON_PREFIX)
  {
    if ParsePutObject(p).Ok? {
      var v := ParsePutObject(p).value;
      assert v[..|p.kind|] == p.kind;
      assert v[0] == p.kind[0];
    }
  }

  // A JSON element's payload is its raw text.
  lemma JsonElement(p: PutObject)
    requires p.kind == [0x6A, 0x73, 0x6F, 0x6E] && p.ttlSeconds >= 0 && p.value != []
    ensures Payload(p) == Some(p.value)
  {
  }

  // An XML element holding any legal escaping of text stores text; anything unquoted or ill-formed is refused.
  lemma XmlElement(p: PutObject, ps: seq<JsonString.Piece>, text: seq<JsonString.Scalar>)
    requires p.kind == [0x78, 0x6D, 0x6C] && p.ttlSeconds >= 0
    requires JsonString.Escapes(ps, text)
    requires p.value == [0x22] + JsonString.RenderAll(ps) + [0x22]
    ensures Payload(p) == Some(JsonString.Utf8All(text))
  {
    assert p.value[1..|p.value| - 1] == JsonString.RenderAll(ps);
    JsonString.UnescapeRoundTrip(ps, text);
  }

  lemma XmlAcceptedIff(p: PutObject)
    requires p.kind == XML_PREFIX && p.ttlSeconds >= 0
    ensures Payload(p).Some? <==> exists ts :: JsonString.IsLiteral(ts, p.value)
  {
    hide JsonString.IsToken, JsonString.Scan, JsonString.Decode;
    forall ts | JsonString.IsLiteral(ts, p.value)
      ensures Payload(p).Some?
    {
      assert p.value[1..|p.value| - 1] == JsonString.Flatten(ts);
      JsonString.ScanAcceptsTokens(ts);
    }
    if Payload(p).Some? {
      var ts := JsonString.TokensOfScan(p.value[1..|p.value| - 1]);
      assert JsonString.IsLiteral(ts, p.value);
    }
  }

  // Each kind of refusal has its own cause: a missing value comes before a negative TTL, and that before the type.
  lemma RefusedFor(p: PutObject)
    ensures var r := ParsePutObject(p);
            && (r == Err(Fail(MISSING_VALUE)) <==> p.value == [])
            && (r == Err(Fail(NEGATIVE_TTL)) <==> p.value != [] && p.ttlSeconds < 0)
            && (r == Err(Fail(UNSUPPORTED_DATA_TO_STORE)) <==>
                p.value != [] && p.ttlSeconds >= 0 && p.kind != XML_PREFIX && p.kind != JSON_PREFIX)
            && (r == Err(Fail(MALFORMED_XML)) <==>
                p.value != [] && p.ttlSeconds >= 0 && p.kind == XML_PREFIX && !exists ts :: JsonString.IsLiteral(ts, p.value))
  {
    assert XML_PREFIX[0] != JSON_PREFIX[0];
    if p.kind == XML_PREFIX && p.ttlSeconds >= 0 {
      XmlAcceptedIff(p);
      StoredForm(p);
    }
  }

  // Every failure of the backend is reported to the client as a PBCError.
  function ClassifyBackendError(e: GoError): (r: GoError)
    ensures IsPbc(r)
    ensures r.pbc.statusCode == if e.BadPayloadSize? then 400 else if e.DeadlineExceeded? then 597 else 500
  {
    match e
    case BadPayloadSize(_, _) => Fail(BAD_PAYLOAD_SIZE)
    case DeadlineExceeded => Fail(PUT_DEADLINE_EXCEEDED)
    case _ => Fail(PUT_INTERNAL_SERVER)
  }
}
