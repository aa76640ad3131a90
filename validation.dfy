/** apps/api/src/middleware/validation.ts: parse the body with a schema and
    either hand the value on or answer 400. */
module Validation {
  import opened Wrappers
  import opened Strings
  import opened Json
  import opened Schema
  import opened Errors

  /** One `path: message` segment; path components are joined with `.`. */
  function IssueText(i: Issue): string
  {
    Join(i.path, ".") + ": " + i.message
  }

  function IssueTexts(issues: seq<Issue>): (r: seq<string>)
    ensures |r| == |issues|
    ensures forall k :: 0 <= k < |r| ==> r[k] == IssueText(issues[k])
  {
    seq(|issues|, k requires 0 <= k < |issues| => IssueText(issues[k]))
  }

  /** The VALIDATION_ERROR message: every issue's segment, joined with `, `. */
  function ValidationMessage(issues: seq<Issue>): string
  {
    Join(IssueTexts(issues), ", ")
  }

  const InvalidRequest: ErrorReply := ErrorResponse("INVALID_REQUEST", "Invalid request body", 400)

  /** `validate(schema)`. `body` is `None` when `c.req.json()` throws (the body
      is not JSON); `Proceed(v)` stands for `c.set('validatedData', v)` and the call of `next`. */
  function Validate<T>(body: Option<Json>, schema: Json -> Parsed<T>): (r: Gate<T>)
    ensures body.None? ==> r == Halt(InvalidRequest)
    ensures body.Some? && schema(body.value).Valid? ==> r == Proceed(schema(body.value).value)
    ensures body.Some? && schema(body.value).Invalid? ==>
      r == Halt(ErrorResponse("VALIDATION_ERROR", ValidationMessage(schema(body.value).issues), 400))
    ensures r.Halt? ==> r.reply.status == 400
  {
    match body
    case None => Halt(InvalidRequest)
    case Some(j) =>
      match schema(j)
      case Valid(v) => Proceed(v)
      case Invalid(issues) => Halt(ErrorResponse("VALIDATION_ERROR", ValidationMessage(issues), 400))
  }

  /** Every issue is reported, in issue order: segment `k` of the message sits at
      `Offset(..., k)`, is followed by `, ` unless it is the last, and the
      segments' positions strictly increase. */
  lemma {:induction false} MessageReportsEveryIssue(issues: seq<Issue>, k: nat)
    requires k < |issues|
    ensures var texts := IssueTexts(issues);
      && OccursAt(ValidationMessage(issues), IssueText(issues[k]), Offset(texts, ", ", k))
      && (k + 1 < |issues| ==>
            OccursAt(ValidationMessage(issues), ", ", Offset(texts, ", ", k) + |IssueText(issues[k])|)
            && Offset(texts, ", ", k) < Offset(texts, ", ", k + 1))
    ensures Contains(ValidationMessage(issues), IssueText(issues[k]))
  {
    var texts := IssueTexts(issues);
    JoinLayout(texts, ", ", k);
    if k + 1 < |issues| {
      OffsetIncreasing(texts, ", ", k, k + 1);
    }
    ContainsIff(ValidationMessage(issues), IssueText(issues[k]));
  }
}
