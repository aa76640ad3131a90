/** apps/api/src/utils/errors.ts: the wire error shape and the classification
    of thrown storage errors. */
module Errors {
  import opened Strings

  /** The body `{ error: { code, message } }`. */
  datatype ErrorDetail = ErrorDetail(code: string, message: string)
  datatype ErrorBody = ErrorBody(error: ErrorDetail)

  /** A JSON error response: its body and its HTTP status. */
  datatype ErrorReply = ErrorReply(body: ErrorBody, status: nat)
  {
    function Code(): string { body.error.code }
    function Message(): string { body.error.message }
  }

  /** Any route's result: a JSON value with a success status, or an error response. */
  datatype Outcome<+T> = Done(status: nat, value: T) | Failed(error: ErrorReply)

  /** A middleware's decision: call `next` with a value, or answer with an error. */
  datatype Gate<+T> = Proceed(value: T) | Halt(reply: ErrorReply)

  /** `errorResponse(c, code, message, status)`. */
  function ErrorResponse(code: string, message: string, status: nat): (r: ErrorReply)
    ensures r.body == ErrorBody(ErrorDetail(code, message)) && r.status == status
    ensures r.Code() == code && r.Message() == message
  {
    ErrorReply(ErrorBody(ErrorDetail(code, message)), status)
  }

  /** What a `catch` receives: an `Error` with its message, or any other thrown value. */
  datatype Thrown = ErrorValue(message: string) | OtherValue

  const DuplicateEntry: ErrorReply := ErrorResponse("DUPLICATE_ENTRY", "This record already exists", 409)
  const InvalidReference: ErrorReply := ErrorResponse("INVALID_REFERENCE", "Referenced record does not exist", 400)
  const RecordNotFound: ErrorReply := ErrorResponse("NOT_FOUND", "Record not found", 404)
  const InternalError: ErrorReply := ErrorResponse("INTERNAL_ERROR", "An unexpected error occurred", 500)

  predicate MentionsUnique(e: Thrown) { e.ErrorValue? && Contains(e.message, "Unique constraint") }
  predicate MentionsForeignKey(e: Thrown) { e.ErrorValue? && Contains(e.message, "Foreign key constraint") }
  predicate MentionsMissingRecord(e: Thrown) { e.ErrorValue? && Contains(e.message, "Record to update not found") }

  /** `handleError(c, error)`: the first matching substring test decides, and
      only four fixed replies exist, so raw error text never reaches the body. */
  function HandleError(e: Thrown): (r: ErrorReply)
    ensures r in {DuplicateEntry, InvalidReference, RecordNotFound, InternalError}
    ensures r == DuplicateEntry <==> MentionsUnique(e)
    ensures r == InvalidReference <==> !MentionsUnique(e) && MentionsForeignKey(e)
    ensures r == RecordNotFound <==> !MentionsUnique(e) && !MentionsForeignKey(e) && MentionsMissingRecord(e)
    ensures r == InternalError <==> !MentionsUnique(e) && !MentionsForeignKey(e) && !MentionsMissingRecord(e)
    ensures e.OtherValue? ==> r == InternalError
    ensures r.Message() in
      {"This record already exists", "Referenced record does not exist", "Record not found", "An unexpected error occurred"}
  {
    if e.ErrorValue? && Contains(e.message, "Unique constraint") then DuplicateEntry
    else if e.ErrorValue? && Contains(e.message, "Foreign key constraint") then InvalidReference
    else if e.ErrorValue? && Contains(e.message, "Record to update not found") then RecordNotFound
    else InternalError
  }

  /** A message holding every marker is classified by the earliest test. */
  lemma {:induction false} EarliestMatchWins(prefix: string, rest: string)
    ensures HandleError(ErrorValue(prefix + "Unique constraint" + rest)) == DuplicateEntry
  {
    var msg := prefix + "Unique constraint" + rest;
    var marker := "Unique constraint";
    assert msg[|prefix|..|prefix| + |marker|] == marker;
    assert OccursAt(msg, marker, |prefix|);
    ContainsIff(msg, marker);
  }
}
