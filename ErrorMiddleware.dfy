/**
 * The error normaliser of src/middlewares/error.middleware.js. It starts
 * from a default response object, lets five classifying branches overwrite
 * its fields in order, deletes the keys whose value is null or undefined,
 * and sends the object with its own statusCode as the HTTP status.
 */
module ErrorMiddleware {
  import opened Wrappers
  import opened Json

  /** The class an error is an instance of. Mongoose's two error classes and `ApiError` exclude each other. */
  datatype ErrorClass = PlainError | MongooseValidationError | MongooseCastError | ApiErrorClass

  /** The properties of `err` the handler reads. */
  datatype ErrorInfo = ErrorInfo(
    cls: ErrorClass,
    statusCode: Value,
    message: Value,
    errors: Value,
    stack: Value,
    code: Value,
    name: Value,
    path: Value,
    keyPattern: Value)

  /** The handler either sends a response, or itself throws a TypeError before sending anything. */
  datatype HandlerResult = Sent(status: Value, body: Object) | Threw

  /** The three fields the classifying branches decide. */
  datatype Draft = Draft(statusCode: Value, message: Value, errors: Value)

  // ---------------------------------------------------------------------------
  // Property reads the branches make

  /** `Object.values(v)`: an object's values, an array's elements, a string's characters; nothing for a boolean or number. */
  function ObjectValues(v: Value): (r: seq<Value>)
    requires !Nullish(v)
    ensures v.Obj? ==> |r| == |v.fields| && forall i :: 0 <= i < |r| ==> r[i] == v.fields[i].1
    ensures v.Arr? ==> r == v.items
    ensures v.Str? ==> |r| == |v.s| && forall i :: 0 <= i < |r| ==> r[i] == Str([v.s[i]])
    ensures v.Bool? || v.Num? ==> r == []
    ensures forall i :: 0 <= i < |r| ==> v.Arr? || v.Obj? || !Nullish(r[i])
  {
    match v
    case Obj(fs) => FieldValues(fs)
    case Arr(items) => items
    case Str(s) => Characters(s)
    case _ => []
  }

  function FieldValues(fs: Object): (r: seq<Value>)
    ensures |r| == |fs| && forall i :: 0 <= i < |r| ==> r[i] == fs[i].1
    decreases |fs|
  {
    if fs == [] then [] else [fs[0].1] + FieldValues(fs[1..])
  }

  function Characters(s: string): (r: seq<Value>)
    ensures |r| == |s| && forall i :: 0 <= i < |r| ==> r[i] == Str([s[i]])
    decreases |s|
  {
    if s == [] then [] else [Str([s[0]])] + Characters(s[1..])
  }

  /** `Object.keys(v)[0]`, or `None` when there are no keys. */
  function FirstKey(v: Value): (k: Option<string>)
    requires !Nullish(v)
    ensures v.Obj? ==> (k.Some? <==> v.fields != []) && (k.Some? ==> HasKey(v.fields, k.value))
    ensures v.Arr? ==> (k.Some? <==> v.items != [])
    ensures v.Str? ==> (k.Some? <==> v.s != [])
    ensures v.Bool? || v.Num? ==> k.None?
    ensures !v.Obj? && k.Some? ==> k.value == "0"
  {
    match v
    case Obj(fs) => if fs == [] then None else Some(fs[0].0)
    case Arr(items) => if items == [] then None else Some("0")
    case Str(s) => if s == "" then None else Some("0")
    case _ => None
  }

  /** `v[key]` on a value that is not null or undefined. */
  function Prop(v: Value, key: string): Value
    requires !Nullish(v)
  {
    if v.Obj? then Get(v.fields, key) else Undefined
  }

  /** `inner.map(e => ({ field: e.path, message: e.message }))` */
  function InnerFieldErrors(inner: seq<Value>): (r: seq<Value>)
    requires forall i :: 0 <= i < |inner| ==> !Nullish(inner[i])
    ensures |r| == |inner|
    ensures forall i :: 0 <= i < |inner| ==> r[i] == FieldError(Prop(inner[i], "path"), Prop(inner[i], "message"))
    decreases |inner|
  {
    if inner == [] then []
    else [FieldError(Prop(inner[0], "path"), Prop(inner[0], "message"))] + InnerFieldErrors(inner[1..])
  }

  // ---------------------------------------------------------------------------
  // The branches

  predicate IsValidation(err: ErrorInfo) { err.cls == MongooseValidationError }
  predicate IsCast(err: ErrorInfo) { err.cls == MongooseCastError }
  predicate IsDuplicate(err: ErrorInfo) { err.code == Num(11000) }
  predicate IsJwt(err: ErrorInfo) { err.name == Str("JsonWebTokenError") || err.name == Str("TokenExpiredError") }
  predicate IsApi(err: ErrorInfo) { err.cls == ApiErrorClass }

  /** `Object.values(err.errors)` or a `.path` read of one of its values would throw. */
  predicate ValidationThrows(err: ErrorInfo) {
    IsValidation(err) &&
    (Nullish(err.errors) || exists i :: 0 <= i < |ObjectValues(err.errors)| && Nullish(ObjectValues(err.errors)[i]))
  }

  /** `Object.keys(err.keyPattern)` would throw. */
  predicate DuplicateThrows(err: ErrorInfo) {
    IsDuplicate(err) && Nullish(err.keyPattern)
  }

  predicate Throws(err: ErrorInfo) {
    ValidationThrows(err) || DuplicateThrows(err)
  }

  function DefaultDraft(err: ErrorInfo): Draft {
    Draft(Or(err.statusCode, Num(500)), Or(err.message, Str("Internal Server Error")), Or(err.errors, Arr([])))
  }

  function ValidationDraft(err: ErrorInfo): Draft
    requires IsValidation(err) && !ValidationThrows(err)
  {
    Draft(Num(400), Str("Validation Error"), Arr(InnerFieldErrors(ObjectValues(err.errors))))
  }

  function CastDraft(err: ErrorInfo): Draft {
    Draft(Num(400), Str("Invalid ID Format"), Arr([FieldError(err.path, Str("Invalid ID format"))]))
  }

  /** The template literal prints a missing key as "undefined". */
  function KeyText(k: Option<string>): string {
    if k.Some? then k.value else "undefined"
  }

  function KeyValue(k: Option<string>): Value {
    if k.Some? then Str(k.value) else Undefined
  }

  function DuplicateDraft(err: ErrorInfo): Draft
    requires !Nullish(err.keyPattern)
  {
    var k := FirstKey(err.keyPattern);
    Draft(Num(409), Str("Duplicate Entry"),
          Arr([FieldError(KeyValue(k), Str("This " + KeyText(k) + " already exists"))]))
  }

  function JwtDraft(err: ErrorInfo): Draft {
    Draft(Num(401), Str("Invalid or Expired Token"),
          Arr([FieldError(Str("token"),
                          Str(if err.name == Str("TokenExpiredError") then "Token has expired" else "Invalid token"))]))
  }

  function ApiDraft(err: ErrorInfo): Draft {
    Draft(err.statusCode, err.message, err.errors)
  }

  /**
   * The reference reading of the five sequential branches: every branch
   * overwrites all three fields, so the last branch that matches decides.
   */
  function Winning(err: ErrorInfo): (d: Draft)
    requires !Throws(err)
    ensures IsApi(err) ==> d == Draft(err.statusCode, err.message, err.errors)
    ensures !IsApi(err) ==> Truthy(d.statusCode) && Truthy(d.message) && Truthy(d.errors)
    ensures !IsApi(err) && IsJwt(err) ==> d.statusCode == Num(401)
    ensures !IsApi(err) && !IsJwt(err) && IsDuplicate(err) ==> d.statusCode == Num(409)
    ensures !IsApi(err) && !IsJwt(err) && !IsDuplicate(err) && (IsCast(err) || IsValidation(err)) ==> d.statusCode == Num(400)
  {
    if IsApi(err) then ApiDraft(err)
    else if IsJwt(err) then JwtDraft(err)
    else if IsDuplicate(err) then DuplicateDraft(err)
    else if IsCast(err) then CastDraft(err)
    else if IsValidation(err) then ValidationDraft(err)
    else DefaultDraft(err)
  }

  /** The object literal, in its key order; `stack` is there only in development. */
  function ResponseObject(d: Draft, err: ErrorInfo, development: bool): (o: Object)
    ensures DistinctKeys(o)
  {
    [ ("statusCode", d.statusCode), ("message", d.message), ("errors", d.errors), ("success", Bool(false)) ]
    + (if development then [("stack", err.stack)] else [])
  }

  // ---------------------------------------------------------------------------
  // Removing null and undefined values

  function Kept(e: (string, Value)): seq<(string, Value)> {
    if Nullish(e.1) then [] else [e]
  }

  /** The object after every key whose value is null or undefined has been deleted. */
  function StripNullish(o: Object): (r: Object)
    ensures forall i :: 0 <= i < |r| ==> !Nullish(r[i].1)
    decreases |o|
  {
    if o == [] then [] else Kept(o[0]) + StripNullish(o[1..])
  }

  lemma {:induction false} StripSnoc(o: Object, e: (string, Value))
    ensures StripNullish(o + [e]) == StripNullish(o) + Kept(e)
    decreases |o|
  {
    if o == [] {
      assert [e][1..] == [];
    } else {
      assert (o + [e])[1..] == o[1..] + [e];
      StripSnoc(o[1..], e);
    }
  }

  /**
   * Deleting the nullish keys leaves no key mapped to null or undefined,
   * leaves every other key with its value, and a read of a deleted key
   * yields undefined.
   */
  lemma {:induction false} StripNullishReads(o: Object, key: string)
    requires DistinctKeys(o)
    ensures Get(StripNullish(o), key) == Clean(Get(o, key))
    decreases |o|
  {
    if o != [] {
      assert StripNullish(o) == Kept(o[0]) + StripNullish(o[1..]);
      assert DistinctKeys(o[1..]) by {
        forall i, j | 0 <= i < j < |o[1..]| ensures o[1..][i].0 != o[1..][j].0 {
          assert o[1..][i] == o[i + 1] && o[1..][j] == o[j + 1];
        }
      }
      StripNullishReads(o[1..], key);
      if o[0].0 == key {
        assert !HasKey(o[1..], key) by {
          forall i | 0 <= i < |o[1..]| ensures o[1..][i].0 != key {
            assert o[1..][i] == o[i + 1];
          }
        }
        GetAbsent(o[1..], key);
        if !Nullish(o[0].1) {
          var r := StripNullish(o);
          assert r != [] && r[0] == o[0];
          assert Get(r, key) == o[0].1;
        } else {
          assert StripNullish(o) == StripNullish(o[1..]);
          assert Get(o, key) == o[0].1;
        }
      } else if !Nullish(o[0].1) {
        var r := StripNullish(o);
        assert r == [o[0]] + StripNullish(o[1..]);
        assert r != [] && r[0].0 != key && r[1..] == StripNullish(o[1..]);
        assert Get(r, key) == Get(StripNullish(o[1..]), key);
        assert Get(o, key) == Get(o[1..], key);
      } else {
        assert StripNullish(o) == StripNullish(o[1..]);
        assert Get(o, key) == Get(o[1..], key);
      }
    }
  }

  // ---------------------------------------------------------------------------
  // The handler

  /** What `errorHandler(err, req, res, next)` sends, stated by the reference reading. */
  function Respond(err: ErrorInfo, development: bool): (r: HandlerResult)
    ensures r.Threw? <==> Throws(err)
    ensures r.Sent? ==> forall i :: 0 <= i < |r.body| ==> !Nullish(r.body[i].1)
  {
    if Throws(err) then Threw
    else
      var body := StripNullish(ResponseObject(Winning(err), err, development));
      Sent(Get(body, "statusCode"), body)
  }

  /**
   * `errorHandler`: builds the default object, applies the five branches in
   * order, then deletes the nullish keys one by one. Logging and the
   * Content-Type header are left out. The whole-object replacement of the
   * ApiError branch resets the same keys in the same order, so it is
   * written as a reassignment of the three fields.
   */
  method ErrorHandler(err: ErrorInfo, development: bool) returns (r: HandlerResult)
    ensures r == Respond(err, development)
  {
    var statusCode := Or(err.statusCode, Num(500));
    var message := Or(err.message, Str("Internal Server Error"));
    var errors := Or(err.errors, Arr([]));

    if err.cls == MongooseValidationError {
      if Nullish(err.errors) {
        return Threw;
      }
      var inner := ObjectValues(err.errors);
      if exists i :: 0 <= i < |inner| && Nullish(inner[i]) {
        return Threw;
      }
      statusCode := Num(400);
      message := Str("Validation Error");
      errors := Arr(InnerFieldErrors(inner));
    }

    if err.cls == MongooseCastError {
      statusCode := Num(400);
      message := Str("Invalid ID Format");
      errors := Arr([FieldError(err.path, Str("Invalid ID format"))]);
    }

    if err.code == Num(11000) {
      if Nullish(err.keyPattern) {
        return Threw;
      }
      var k := FirstKey(err.keyPattern);
      statusCode := Num(409);
      message := Str("Duplicate Entry");
      errors := Arr([FieldError(KeyValue(k), Str("This " + KeyText(k) + " already exists"))]);
    }

    if err.name == Str("JsonWebTokenError") || err.name == Str("TokenExpiredError") {
      statusCode := Num(401);
      message := Str("Invalid or Expired Token");
      var detail := if err.name == Str("TokenExpiredError") then "Token has expired" else "Invalid token";
      errors := Arr([FieldError(Str("token"), Str(detail))]);
    }

    if err.cls == ApiErrorClass {
      statusCode := err.statusCode;
      message := err.message;
      errors := err.errors;
    }

    assert Draft(statusCode, message, errors) == Winning(err);
    var error := ResponseObject(Draft(statusCode, message, errors), err, development);
    var kept := RemoveNullish(error);
    r := Sent(Get(kept, "statusCode"), kept);
  }

  /** `Object.keys(error).forEach(key => ... && delete error[key])`, keeping the surviving keys in order. */
  method RemoveNullish(error: Object) returns (kept: Object)
    ensures kept == StripNullish(error)
  {
    kept := [];
    var i := 0;
    while i < |error|
      invariant 0 <= i <= |error|
      invariant kept == StripNullish(error[..i])
    {
      StripSnoc(error[..i], error[i]);
      assert error[..i + 1] == error[..i] + [error[i]];
      if !Nullish(error[i].1) {
        kept := kept + [error[i]];
      }
      i := i + 1;
    }
    assert error[..i] == error;
  }

  // ---------------------------------------------------------------------------
  // What the response says

  /**
   * Every response the handler sends is the winning draft with nullish
   * fields removed: `success` is false, no key holds null or undefined, the
   * HTTP status is the body's statusCode, and `stack` appears only in
   * development.
   */
  lemma ResponseShape(err: ErrorInfo, development: bool)
    requires !Throws(err)
    ensures Respond(err, development).Sent?
    ensures var body := Respond(err, development).body;
      && Respond(err, development).status == Get(body, "statusCode")
      && Get(body, "statusCode") == Clean(Winning(err).statusCode)
      && Get(body, "message") == Clean(Winning(err).message)
      && Get(body, "errors") == Clean(Winning(err).errors)
      && Get(body, "success") == Bool(false)
      && Get(body, "stack") == (if development then Clean(err.stack) else Undefined)
      && forall i :: 0 <= i < |body| ==> !Nullish(body[i].1)
  {
    var o := ResponseObject(Winning(err), err, development);
    GetAt(o, 0);
    GetAt(o, 1);
    GetAt(o, 2);
    GetAt(o, 3);
    if development {
      GetAt(o, 4);
    } else {
      GetAbsent(o, "stack");
    }
    StripNullishReads(o, "statusCode");
    StripNullishReads(o, "message");
    StripNullishReads(o, "errors");
    StripNullishReads(o, "success");
    StripNullishReads(o, "stack");
  }

  /** Without a classifying match: the error's own truthy fields, else 500, "Internal Server Error" and []. */
  lemma DefaultResponse(err: ErrorInfo, development: bool)
    requires err.cls == PlainError && !IsDuplicate(err) && !IsJwt(err)
    ensures var r := Respond(err, development);
      && r.Sent?
      && r.status == (if Truthy(err.statusCode) then err.statusCode else Num(500))
      && Get(r.body, "message") == (if Truthy(err.message) then err.message else Str("Internal Server Error"))
      && Get(r.body, "errors") == (if Truthy(err.errors) then err.errors else Arr([]))
      && Get(r.body, "success") == Bool(false)
  {
    ResponseShape(err, development);
  }

  /** A Mongoose validation error: 400 "Validation Error", one `{ field, message }` per inner error, in order. */
  lemma ValidationResponse(err: ErrorInfo, development: bool)
    requires IsValidation(err) && !Throws(err) && !IsDuplicate(err) && !IsJwt(err)
    ensures var r := Respond(err, development);
      && r.Sent? && r.status == Num(400)
      && Get(r.body, "message") == Str("Validation Error")
      && Get(r.body, "errors").Arr?
      && var inner := ObjectValues(err.errors);
         var es := Get(r.body, "errors").items;
         |es| == |inner| &&
         forall i :: 0 <= i < |inner| ==> es[i] == FieldError(Prop(inner[i], "path"), Prop(inner[i], "message"))
  {
    ResponseShape(err, development);
  }

  /** A Mongoose cast error: 400 "Invalid ID Format" with exactly one entry, for the offending path. */
  lemma CastResponse(err: ErrorInfo, development: bool)
    requires IsCast(err) && !IsDuplicate(err) && !IsJwt(err)
    ensures var r := Respond(err, development);
      && r.Sent? && r.status == Num(400)
      && Get(r.body, "message") == Str("Invalid ID Format")
      && Get(r.body, "errors") == Arr([FieldError(err.path, Str("Invalid ID format"))])
  {
    ResponseShape(err, development);
  }

  /** A duplicate-key error (code 11000): 409 "Duplicate Entry", naming the first key of the key pattern. */
  lemma DuplicateResponse(err: ErrorInfo, development: bool)
    requires IsDuplicate(err) && !IsJwt(err) && !IsApi(err) && !ValidationThrows(err)
    requires err.keyPattern.Obj? && err.keyPattern.fields != []
    ensures var r := Respond(err, development);
      var key := err.keyPattern.fields[0].0;
      && r.Sent? && r.status == Num(409)
      && Get(r.body, "message") == Str("Duplicate Entry")
      && Get(r.body, "errors") == Arr([FieldError(Str(key), Str("This " + key + " already exists"))])
  {
    ResponseShape(err, development);
  }

  /** A JWT error: 401, and the entry says "Token has expired" exactly when the token expired. */
  lemma JwtResponse(err: ErrorInfo, development: bool)
    requires IsJwt(err) && !IsApi(err) && !Throws(err)
    ensures var r := Respond(err, development);
      && r.Sent? && r.status == Num(401)
      && Get(r.body, "message") == Str("Invalid or Expired Token")
      && Get(r.body, "errors").Arr?
      && |Get(r.body, "errors").items| == 1
      && (Get(r.body, "errors").items[0] == FieldError(Str("token"), Str("Token has expired"))
          <==> err.name == Str("TokenExpiredError"))
  {
    ResponseShape(err, development);
  }

  /**
   * An ApiError overrides every other branch: the response carries the
   * error's own statusCode, message and errors, whatever its code or name,
   * each dropped when it is null or undefined.
   */
  lemma ApiErrorOverrides(err: ErrorInfo, development: bool)
    requires IsApi(err) && !DuplicateThrows(err)
    ensures var r := Respond(err, development);
      && r.Sent?
      && r.status == Clean(err.statusCode)
      && Get(r.body, "message") == Clean(err.message)
      && Get(r.body, "errors") == Clean(err.errors)
      && Get(r.body, "success") == Bool(false)
  {
    ResponseShape(err, development);
  }

  /** The last matching branch wins: a duplicate-key error that also carries a JWT error name is answered 401. */
  lemma LastBranchWins(err: ErrorInfo, development: bool)
    requires IsDuplicate(err) && !Nullish(err.keyPattern) && IsJwt(err) && !IsApi(err) && !IsValidation(err)
    ensures Respond(err, development).Sent? && Respond(err, development).status == Num(401)
  {
    ResponseShape(err, development);
  }

  /** The handler throws exactly when one of the property reads it makes hits null or undefined. */
  lemma ThrowsOnlyOnNullishReads(err: ErrorInfo, development: bool)
    ensures Respond(err, development) == Threw <==>
      (IsValidation(err) && Nullish(err.errors)) ||
      (IsValidation(err) && !Nullish(err.errors) && exists v :: v in ObjectValues(err.errors) && Nullish(v)) ||
      (IsDuplicate(err) && Nullish(err.keyPattern))
  {
  }
}
