/** HTTP responses, and the pure part of endpoints/get.go. */
module Responses {
  import opened Basics
  import opened Errors
  import opened PutObjects
  import JsonString

  datatype ContentType = ApplicationXml | ApplicationJson | PlainText

  // Error texts are not modelled: an error response has an empty body.
  datatype Response = Response(status: int, contentType: ContentType, body: Bytes)

  function ParseUUID(uuid: Bytes, allowCustomKeys: bool): Result<Bytes, GoError> {
    if uuid == [] then Err(Fail(MISSING_KEY))
    else if |uuid| != 36 && !allowCustomKeys then Err(Fail(KEY_LENGTH))
    else Ok(uuid)
  }

  function WriteGetResponse(stored: Bytes): Result<Response, GoError> {
    if XML_PREFIX <= stored then Ok(Response(STATUS_OK, ApplicationXml, stored[|XML_PREFIX|..]))
    else if JSON_PREFIX <= stored then Ok(Response(STATUS_OK, ApplicationJson, stored[|JSON_PREFIX|..]))
    else Err(Fail(UNKNOWN_STORED_DATA_TYPE))
  }

  // The status that handleException and the POST handler's error branch choose.
  function ErrorStatus(e: GoError): int {
    if e.Pbc? then e.pbc.statusCode else STATUS_INTERNAL_SERVER_ERROR
  }

  function ErrorResponse(e: GoError): Response {
    Response(ErrorStatus(e), PlainText, [])
  }

  // The single response a GET ends with, given what the lookup produced.
  function GetResponse(looked: Result<Bytes, GoError>): Response {
    match looked
    case Err(e) => ErrorResponse(e)
    case Ok(stored) =>
      match WriteGetResponse(stored)
      case Ok(response) => response
      case Err(e) => ErrorResponse(e)
  }

  // What is found is served under its type without its prefix; data of no known type is a server error, an error has its
  // own status, and one that is no PBCError is a server error.
  lemma AnswerIs(looked: Result<Bytes, GoError>)
    ensures var r := GetResponse(looked);
            match looked
            case Ok(stored) =>
              if [0x78, 0x6D, 0x6C] <= stored then r == Response(200, ApplicationXml, stored[3..])
              else if [0x6A, 0x73, 0x6F, 0x6E] <= stored then r == Response(200, ApplicationJson, stored[4..])
              else r == Response(500, PlainText, [])
            case Err(Pbc(e)) => r == Response(e.statusCode, PlainText, [])
            case Err(_) => r == Response(500, PlainText, [])
  {
  }

  // A UUID is required, and has 36 bytes unless clients may choose keys.
  lemma UuidParsesIff(uuid: Bytes, allowCustomKeys: bool)
    ensures ParseUUID(uuid, allowCustomKeys) == Ok(uuid) <==> uuid != [] && (allowCustomKeys || |uuid| == 36)
    ensures var r := ParseUUID(uuid, allowCustomKeys);
            r.Err? ==> IsPbc(r.error) && r.error.pbc.statusCode == if uuid == [] then 400 else 404
  {
  }

  // The response owed to whoever reads a well-formed element back.
  function Echo(p: PutObject): Response
    requires Payload(p).Some?
  {
    Response(STATUS_OK, if p.kind == XML_PREFIX then ApplicationXml else ApplicationJson, Payload(p).value)
  }

  // Reading back what ParsePutObject stored restores the element's type and payload.
  lemma FormatThenServe(p: PutObject)
    requires ParsePutObject(p).Ok?
    ensures Payload(p).Some? && GetResponse(Ok(ParsePutObject(p).value)) == Echo(p)
  {
    StoredForm(p);
    assert (p.kind + Payload(p).value)[|p.kind|..] == Payload(p).value;
  }

  // The reader of a JSON element gets its raw text; of an XML element, the text of the string literal.
  lemma JsonEcho(p: PutObject)
    requires p.kind == [0x6A, 0x73, 0x6F, 0x6E] && p.ttlSeconds >= 0 && p.value != []
    ensures Payload(p).Some? && Echo(p) == Response(200, ApplicationJson, p.value)
  {
    assert p.kind[0] != XML_PREFIX[0];
  }

  lemma XmlEcho(p: PutObject, ps: seq<JsonString.Piece>, text: seq<JsonString.Scalar>)
    requires p.kind == [0x78, 0x6D, 0x6C] && p.ttlSeconds >= 0
    requires JsonString.Escapes(ps, text)
    requires p.value == [0x22] + JsonString.RenderAll(ps) + [0x22]
    ensures Payload(p).Some? && Echo(p) == Response(200, ApplicationXml, JsonString.Utf8All(text))
  {
    XmlElement(p, ps, text);
  }
}
