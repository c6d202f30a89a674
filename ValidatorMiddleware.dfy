/**
 * The `validate` middleware of src/middlewares/validator.middleware.js: it
 * reads the errors the validator chains collected and either calls `next()`
 * or answers 422 itself.
 */
module ValidatorMiddleware {
  import opened Json

  /** One error the validator chains reported: its `path` and its `msg`. */
  datatype ValidationIssue = ValidationIssue(path: Value, msg: Value)

  /** `next()`, or `res.status(status).json(body)`. */
  datatype ValidateOutcome = Next | Reply(status: int, body: Object)

  /** `errors.array().map(err => ({ field: err.path, message: err.msg }))` */
  function ExtractedErrors(issues: seq<ValidationIssue>): (r: seq<Value>)
    ensures |r| == |issues|
    ensures forall i :: 0 <= i < |issues| ==> r[i] == FieldError(issues[i].path, issues[i].msg)
    decreases |issues|
  {
    if issues == [] then []
    else [FieldError(issues[0].path, issues[0].msg)] + ExtractedErrors(issues[1..])
  }

  function Validate(issues: seq<ValidationIssue>): (r: ValidateOutcome)
    ensures r == Next <==> issues == []
  {
    if issues == [] then Next
    else Reply(422, RejectionBody(issues))
  }

  function RejectionBody(issues: seq<ValidationIssue>): (o: Object)
    ensures DistinctKeys(o)
  {
    [ ("statusCode", Num(422)), ("message", Str("Validation failed")), ("errors", Arr(ExtractedErrors(issues))) ]
  }

  /**
   * A non-empty error list is answered with HTTP 422, a body whose
   * statusCode is 422 and whose message is "Validation failed", and one
   * `{ field, message }` entry per reported error, in the reported order.
   * The body carries no `success` key.
   */
  lemma RejectedRequest(issues: seq<ValidationIssue>)
    requires issues != []
    ensures Validate(issues).Reply?
    ensures Validate(issues).status == 422
    ensures Get(Validate(issues).body, "statusCode") == Num(422)
    ensures Get(Validate(issues).body, "message") == Str("Validation failed")
    ensures Get(Validate(issues).body, "success") == Undefined
    ensures Get(Validate(issues).body, "errors").Arr?
    ensures var es := Get(Validate(issues).body, "errors").items;
      |es| == |issues| &&
      forall i :: 0 <= i < |issues| ==> es[i] == FieldError(issues[i].path, issues[i].msg)
  {
    var o := RejectionBody(issues);
    GetAt(o, 0);
    GetAt(o, 1);
    GetAt(o, 2);
    GetAbsent(o, "success");
  }
}
