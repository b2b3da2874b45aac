/** utils/errors.go: error types, their status codes, and the errors a backend can return. */
module Errors {
  datatype ErrorType =
    | MISSING_KEY
    | RECORD_EXISTS
    | PUT_MAX_NUM_VALUES
    | PUT_BAD_REQUEST
    | NEGATIVE_TTL
    | MALFORMED_XML
    | UNSUPPORTED_DATA_TO_STORE
    | MISSING_VALUE
    | BAD_PAYLOAD_SIZE
    | KEY_NOT_FOUND
    | KEY_LENGTH
    | UNKNOWN_STORED_DATA_TYPE
    | GET_INTERNAL_SERVER
    | PUT_INTERNAL_SERVER
    | MARSHAL_RESPONSE
    | PUT_DEADLINE_EXCEEDED

  const STATUS_OK := 200
  const STATUS_BAD_REQUEST := 400
  const STATUS_NOT_FOUND := 404
  const STATUS_INTERNAL_SERVER_ERROR := 500
  const HTTP_DEPENDENCY_TIMEOUT := 597

  // errToStatusCodes, which has an entry for each of the sixteen types.
  function StatusOf(kind: ErrorType): int {
    match kind
    case MISSING_KEY | RECORD_EXISTS | PUT_MAX_NUM_VALUES | PUT_BAD_REQUEST | NEGATIVE_TTL => STATUS_BAD_REQUEST
    case MALFORMED_XML | UNSUPPORTED_DATA_TO_STORE | MISSING_VALUE | BAD_PAYLOAD_SIZE => STATUS_BAD_REQUEST
    case UNKNOWN_STORED_DATA_TYPE | GET_INTERNAL_SERVER | PUT_INTERNAL_SERVER | MARSHAL_RESPONSE => STATUS_INTERNAL_SERVER_ERROR
    case KEY_NOT_FOUND | KEY_LENGTH => STATUS_NOT_FOUND
    case PUT_DEADLINE_EXCEEDED => HTTP_DEPENDENCY_TIMEOUT
  }

  datatype PBCError = PBCError(kind: ErrorType, statusCode: int)

  // Every value of Go's error interface that the modelled code meets. Message texts are not modelled.
  datatype GoError =
    | Pbc(pbc: PBCError)
    | BadPayloadSize(limit: int, size: nat)
    | DeadlineExceeded
    | CorruptData
    | OtherError

  function NewPBCError(kind: ErrorType): (e: PBCError)
    ensures e.kind == kind
    ensures e.statusCode in {400, 404, 500, 597}
    ensures 400 <= e.statusCode < 500 <==>
            kind !in {UNKNOWN_STORED_DATA_TYPE, GET_INTERNAL_SERVER, PUT_INTERNAL_SERVER, MARSHAL_RESPONSE, PUT_DEADLINE_EXCEEDED}
    ensures e.statusCode == 404 <==> kind in {KEY_NOT_FOUND, KEY_LENGTH}
    ensures e.statusCode == 597 <==> kind == PUT_DEADLINE_EXCEEDED
  {
    PBCError(kind, StatusOf(kind))
  }

  function Fail(kind: ErrorType): GoError {
    Pbc(NewPBCError(kind))
  }

  // Built by NewPBCError: the type and the status agree.
  predicate IsPbc(e: GoError) {
    e.Pbc? && e.pbc == NewPBCError(e.pbc.kind)
  }

  // NewPBCError is the only maker of PBCErrors.
  predicate WellBuilt(e: GoError) {
    e.Pbc? ==> IsPbc(e)
  }
}
