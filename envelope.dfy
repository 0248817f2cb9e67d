/**
 * The response envelope of `response.middleware.ts`: the body `res.json`
 * sends once `responseWrapper` has replaced it, and the body and status of
 * `errorResponseWrapper`. Both are modelled as functions of the data and
 * the status code; the override of `res.json` itself is not modelled.
 */
module Envelope {
  import opened Wrappers
  import opened Js

  /** The one way building an envelope can fail: reading a property of null or undefined. */
  datatype TypeError = TypeError

  const DefaultError: string := "An error occurred"
  const InternalError: string := "Internal server error"

  /** `data && data.hasOwnProperty('success')`: the data is already an envelope. */
  predicate AlreadyWrapped(data: Json) {
    Truthy(data) && HasOwn(data, "success")
  }

  /** The error envelope for data that is not null: error and message fall back on each other. */
  function ErrorBody(data: Json): (body: Json)
    requires !data.Null?
  {
    var fields := map[
      "success" := Bool(false),
      "error" := Or(Or(Prop(data, "error"), Prop(data, "message")), Str(DefaultError)),
      "message" := Or(Or(Prop(data, "message"), Prop(data, "error")), Str(DefaultError))];
    if Truthy(Prop(data, "details")) then Obj(fields["details" := Prop(data, "details")]) else Obj(fields)
  }

  function SuccessBody(data: Json): Json {
    Obj(map["success" := Bool(true), "data" := data])
  }

  /** The body `res.json(data)` sends at the given status under `responseWrapper`. */
  function Wrap(data: Json, status: int): Result<Json, TypeError> {
    if AlreadyWrapped(data) then Ok(data)
    else if status >= 400 then
      if data.Null? then Err(TypeError) else Ok(ErrorBody(data))
    else Ok(SuccessBody(data))
  }

  /**
   * The three shapes of a wrapped body: an envelope passes through untouched;
   * at an error status the body is `success: false` with `error` preferring
   * data.error, `message` preferring data.message, and `details` exactly when
   * data.details is truthy; below 400 it is `{success: true, data}`.
   */
  lemma WrapCases(data: Json, status: int)
    ensures AlreadyWrapped(data) ==> Wrap(data, status) == Ok(data)
    ensures !AlreadyWrapped(data) && status >= 400 && data.Null? ==> Wrap(data, status) == Err(TypeError)
    ensures !AlreadyWrapped(data) && status >= 400 && !data.Null? ==>
      Wrap(data, status).Ok? &&
      var body := Wrap(data, status).value;
      body.Obj? && body.fields["success"] == Bool(false) &&
      body.fields["error"] == Or(Or(Prop(data, "error"), Prop(data, "message")), Str(DefaultError)) &&
      body.fields["message"] == Or(Or(Prop(data, "message"), Prop(data, "error")), Str(DefaultError)) &&
      Truthy(body.fields["error"]) && Truthy(body.fields["message"]) &&
      ("details" in body.fields <==> Truthy(Prop(data, "details"))) &&
      ("details" in body.fields ==> body.fields["details"] == Prop(data, "details")) &&
      body.fields.Keys <= {"success", "error", "message", "details"}
    ensures !AlreadyWrapped(data) && status < 400 ==>
      Wrap(data, status) == Ok(Obj(map["success" := Bool(true), "data" := data]))
  {
  }

  /** Anything `Wrap` produces is itself an envelope, so wrapping twice changes nothing, at any status. */
  lemma WrapIdempotent(data: Json, status: int, laterStatus: int)
    requires Wrap(data, status).Ok?
    ensures AlreadyWrapped(Wrap(data, status).value)
    ensures Wrap(Wrap(data, status).value, laterStatus) == Wrap(data, status)
  {
  }

  /**
   * `errorResponseWrapper(err)`: the status and the body it sends. Express
   * hands an error handler only a truthy error.
   */
  function ErrorResponse(err: Json): (r: (Json, Json))
    requires Truthy(err)
  {
    var message := Or(Prop(err, "message"), Str(InternalError));
    (Or(Or(Prop(err, "status"), Prop(err, "statusCode")), Num(500.0)),
     Obj(map["success" := Bool(false), "error" := message, "message" := message]))
  }

  /**
   * The error handler's status is err.status, else err.statusCode, else 500;
   * its body carries the same text as error and message; and the body is an
   * envelope, so `responseWrapper` sends it unchanged.
   */
  lemma ErrorResponseProperties(err: Json, status: int)
    requires Truthy(err)
    ensures var (code, body) := ErrorResponse(err);
      (Truthy(Prop(err, "status")) ==> code == Prop(err, "status")) &&
      (!Truthy(Prop(err, "status")) && Truthy(Prop(err, "statusCode")) ==> code == Prop(err, "statusCode")) &&
      (!Truthy(Prop(err, "status")) && !Truthy(Prop(err, "statusCode")) ==> code == Num(500.0)) &&
      body.Obj? && body.fields["success"] == Bool(false) &&
      body.fields["error"] == body.fields["message"] &&
      (Truthy(Prop(err, "message")) ==> body.fields["message"] == Prop(err, "message")) &&
      (!Truthy(Prop(err, "message")) ==> body.fields["message"] == Str(InternalError)) &&
      Wrap(body, status) == Ok(body)
  {
  }
}
