/** `errorController`: the global Express error handler. It fills in a
    default status code and status, then in development sends the full
    error, and in production classifies the error by name or code and
    sends a sanitized response. */
module ErrorController {
  import opened Js
  import opened Express

  /** The error object the handler receives. `statusCode == 0` and
      `status == ""` stand for an absent (or otherwise falsy) property;
      `path`/`value` are a Mongoose `CastError`'s, `quotedValue` is what the
      quote-matching regex extracts from a duplicate-key `errmsg`, and
      `fieldErrors` holds `Object.values(err.errors)` of a
      `ValidationError`, of which the handler only reads the misspelled
      `massage` property, absent on every one. */
  datatype Err = Err(
    name: string,
    code: Option<int>,
    statusCode: int,
    status: string,
    message: string,
    isOperational: bool,
    stack: string,
    path: string,
    value: string,
    quotedValue: string,
    fieldErrors: seq<FieldError>)

  /** A Mongoose validator error: its `message` and its (never present)
      `massage`. */
  datatype FieldError = FieldError(message: string, massage: Option<string>)

  datatype Env = Development | Production | OtherEnv

  /** What the handler sends: `res.status(code).json(..)` in the two JSON
      shapes, or `res.status(code).render('error', { title, msg })`. */
  datatype Response =
    | DevJson(code: int, status: string, error: Err, message: string, stack: string)
    | ProdJson(code: int, status: string, message: string)
    | Render(code: int, title: string, msg: string)

  const RenderTitle := "Something went wrong"
  const GenericMessage := "Something went wrong!"

  /** An `AppError` as an error object: operational, `status` `'fail'` for
      a 4xx code and `'error'` otherwise, named `'Error'`, with no `code`. */
  function FromAppError(a: AppError): (e: Err)
    ensures e.isOperational && e.statusCode == a.statusCode && e.message == a.message
    ensures e.name != "CastError" && e.name != "ValidationError" && e.code.None?
  {
    Err("Error", None, a.statusCode, if 400 <= a.statusCode < 500 then "fail" else "error",
        a.message, true, "", "", "", "", [])
  }

  /** `arr.join(sep)`: an absent element contributes the empty string. */
  function Join(parts: seq<Option<string>>, sep: string): string
    decreases |parts|
  {
    if parts == [] then ""
    else
      var head := if parts[0].Some? then parts[0].value else "";
      if |parts| == 1 then head else head + sep + Join(parts[1..], sep)
  }

  function HandleCastErrorDb(err: Err): AppError {
    AppError("Invalid " + err.path + ": " + err.value, 400)
  }

  function HandleDuplicateFieldsDb(err: Err): AppError {
    AppError("Duplicate field value " + err.quotedValue, 400)
  }

  function Massages(fs: seq<FieldError>): (r: seq<Option<string>>)
    ensures |r| == |fs|
    ensures forall i :: 0 <= i < |fs| ==> r[i] == fs[i].massage
  {
    if fs == [] then [] else [fs[0].massage] + Massages(fs[1..])
  }

  function Messages(fs: seq<FieldError>): (r: seq<Option<string>>)
    ensures |r| == |fs|
    ensures forall i :: 0 <= i < |fs| ==> r[i] == Some(fs[i].message)
  {
    if fs == [] then [] else [Some(fs[0].message)] + Messages(fs[1..])
  }

  /** `handleValidationErrorDb` as written: it joins the `massage` of each
      field error. */
  function HandleValidationErrorDb(err: Err): AppError {
    AppError("Invalid input data " + Join(Massages(err.fieldErrors), ". "), 400)
  }

  /** As evidently intended: it joins the validators' messages. */
  function HandleValidationErrorDbIntended(err: Err): AppError {
    AppError("Invalid input data " + Join(Messages(err.fieldErrors), ". "), 400)
  }

  /** Joining only absent elements gives one separator between each two. */
  lemma {:induction false} JoinOfAbsent(parts: seq<Option<string>>, sep: string)
    requires forall i :: 0 <= i < |parts| ==> parts[i].None?
    ensures |parts| > 0 ==> |Join(parts, sep)| == (|parts| - 1) * |sep|
    ensures |parts| == 0 ==> Join(parts, sep) == ""
    decreases |parts|
  {
    if |parts| > 1 {
      JoinOfAbsent(parts[1..], sep);
    }
  }

  /** As written, the message says nothing about which fields failed: it
      depends only on how many did. */
  lemma ValidationMessageIgnoresFields(e1: Err, e2: Err)
    requires |e1.fieldErrors| == |e2.fieldErrors|
    requires forall i :: 0 <= i < |e1.fieldErrors| ==> e1.fieldErrors[i].massage.None?
    requires forall i :: 0 <= i < |e2.fieldErrors| ==> e2.fieldErrors[i].massage.None?
    ensures HandleValidationErrorDb(e1) == HandleValidationErrorDb(e2)
  {
    var m1, m2 := Massages(e1.fieldErrors), Massages(e2.fieldErrors);
    assert m1 == m2;
  }

  /** A single failing field: as written the message is only the prefix,
      the intended handler reports the field's own message. */
  lemma ValidationMessageOfOneField(e: Err, f: FieldError)
    requires e.fieldErrors == [f] && f.massage.None?
    ensures HandleValidationErrorDb(e).message == "Invalid input data "
    ensures HandleValidationErrorDbIntended(e).message == "Invalid input data " + f.message
  {
    assert Massages(e.fieldErrors) == [None];
    assert Messages(e.fieldErrors) == [Some(f.message)];
  }

  function HandleJWTError(err: Err): AppError {
    AppError("Invalid token, please log again!", 401)
  }

  function HandleJWTExpiredError(err: Err): AppError {
    AppError("Your token has expired token, please log again!", 401)
  }

  /** `sendErrorDev`: the whole error, with its stack, on `/api`; the
      error page elsewhere. */
  function SendErrorDev(err: Err, originalUrl: string): (r: Response)
    ensures StartsWith(originalUrl, "/api") <==> r.DevJson?
    ensures r.DevJson? ==> r.stack == err.stack && r.error == err
    ensures r.code == err.statusCode
  {
    if StartsWith(originalUrl, "/api") then DevJson(err.statusCode, err.status, err, err.message, err.stack)
    else Render(err.statusCode, RenderTitle, err.message)
  }

  /** `sendErrorProd`: an operational error's own code and message on
      `/api`, a generic 500 for any other, the error page elsewhere. */
  function SendErrorProd(err: Err, originalUrl: string): (r: Response)
    ensures !r.DevJson?
    ensures StartsWith(originalUrl, "/api") <==> r.ProdJson?
    ensures r.ProdJson? && err.isOperational ==> r == ProdJson(err.statusCode, err.status, err.message)
    ensures r.ProdJson? && !err.isOperational ==> r == ProdJson(500, "error", GenericMessage)
    ensures r.Render? ==> r.code == err.statusCode && r.msg == err.message
  {
    if StartsWith(originalUrl, "/api") then
      if err.isOperational then ProdJson(err.statusCode, err.status, err.message)
      else ProdJson(500, "error", GenericMessage)
    else Render(err.statusCode, RenderTitle, err.message)
  }

  /** The production classification: the first of the five tests that
      matches decides, since a mapped `AppError` matches none of the later
      ones. */
  function Classify(error: Err): (r: Option<AppError>)
    ensures error.name == "CastError" ==> r == Some(AppError("Invalid " + error.path + ": " + error.value, 400))
    ensures error.name != "CastError" && error.code == Some(11000) ==>
      r == Some(AppError("Duplicate field value " + error.quotedValue, 400))
    ensures error.name == "ValidationError" ==> r.Some? && r.value.statusCode == 400
    ensures error.name == "JsonWebTokenError" && error.code != Some(11000) ==>
      r == Some(AppError("Invalid token, please log again!", 401))
    ensures error.name == "TokenExpiredError" && error.code != Some(11000) ==>
      r == Some(AppError("Your token has expired token, please log again!", 401))
    ensures r.None? <==>
      error.name !in {"CastError", "ValidationError", "JsonWebTokenError", "TokenExpiredError"} && error.code != Some(11000)
  {
    if error.name == "CastError" then Some(HandleCastErrorDb(error))
    else if error.code == Some(11000) then Some(HandleDuplicateFieldsDb(error))
    else if error.name == "ValidationError" then Some(HandleValidationErrorDb(error))
    else if error.name == "JsonWebTokenError" then Some(HandleJWTError(error))
    else if error.name == "TokenExpiredError" then Some(HandleJWTExpiredError(error))
    else None
  }

  /** `err.statusCode = err.statusCode || 500; err.status = err.status || 'error'`. */
  function WithDefaults(err: Err): (e: Err)
    ensures e.statusCode == (if err.statusCode == 0 then 500 else err.statusCode)
    ensures e.status == (if err.status == "" then "error" else err.status)
    ensures e.(statusCode := err.statusCode, status := err.status) == err
  {
    err.(statusCode := if err.statusCode == 0 then 500 else err.statusCode,
         status := if err.status == "" then "error" else err.status)
  }

  /** The exported handler as written. It normalizes `err` in place; in
      production it copies it into `error` and rebinds `error` through the
      `handle*` chain, then sends `err`, so the classification is
      computed and dropped. `mapped` is that final `error`. */
  method HandleError(err: Err, env: Env, originalUrl: string) returns (normalized: Err, mapped: Err, response: Option<Response>)
    ensures normalized == WithDefaults(err)
    ensures env == Production ==> mapped == (if Classify(normalized).Some? then FromAppError(Classify(normalized).value) else normalized)
    ensures env == Development ==> response == Some(SendErrorDev(normalized, originalUrl))
    ensures env == Production ==> response == Some(SendErrorProd(normalized, originalUrl))
    ensures env == OtherEnv ==> response.None?
  {
    normalized := err;
    if normalized.statusCode == 0 {
      normalized := normalized.(statusCode := 500);
    }
    if normalized.status == "" {
      normalized := normalized.(status := "error");
    }
    mapped := normalized;
    response := None;
    if env == Development {
      response := Some(SendErrorDev(normalized, originalUrl));
    } else if env == Production {
      var error := normalized;
      if error.name == "CastError" {
        error := FromAppError(HandleCastErrorDb(error));
      }
      if error.code == Some(11000) {
        error := FromAppError(HandleDuplicateFieldsDb(error));
      }
      if error.name == "ValidationError" {
        error := FromAppError(HandleValidationErrorDb(error));
      }
      if error.name == "JsonWebTokenError" {
        error := FromAppError(HandleJWTError(error));
      }
      if error.name == "TokenExpiredError" {
        error := FromAppError(HandleJWTExpiredError(error));
      }
      mapped := error;
      response := Some(SendErrorProd(normalized, originalUrl));
    }
  }

  /** A production response never carries the stack. */
  lemma ProductionHidesStack(err: Err, originalUrl: string)
    ensures !SendErrorProd(WithDefaults(err), originalUrl).DevJson?
    ensures StartsWith(originalUrl, "/api") && !err.isOperational ==>
      SendErrorProd(WithDefaults(err), originalUrl) == ProdJson(500, "error", GenericMessage)
  {
  }

  /** As written, a Mongoose `CastError` (which is not operational) reaches
      an `/api` client in production as a generic 500, although the
      classification maps it to a 400. */
  lemma CastErrorStillGeneric(err: Err)
    requires err.name == "CastError" && !err.isOperational
    ensures Classify(WithDefaults(err)).value.statusCode == 400
    ensures SendErrorProd(WithDefaults(err), "/api/v1/users") == ProdJson(500, "error", GenericMessage)
  {
    assert StartsWith("/api/v1/users", "/api");
  }

  /** The handler as evidently intended: production sends the classified
      error, or the original one when no test matched. */
  function HandleErrorIntended(err: Err, env: Env, originalUrl: string): (response: Option<Response>)
    ensures env == Production && Classify(WithDefaults(err)).Some? && StartsWith(originalUrl, "/api") ==>
      var a := Classify(WithDefaults(err)).value;
      response == Some(ProdJson(a.statusCode, FromAppError(a).status, a.message))
    ensures env == Production && Classify(WithDefaults(err)).None? ==>
      response == Some(SendErrorProd(WithDefaults(err), originalUrl))
    ensures env == Development ==> response == Some(SendErrorDev(WithDefaults(err), originalUrl))
    ensures env == OtherEnv ==> response.None?
  {
    var e := WithDefaults(err);
    match env
    case Development => Some(SendErrorDev(e, originalUrl))
    case Production =>
      var c := Classify(e);
      Some(SendErrorProd(if c.Some? then FromAppError(c.value) else e, originalUrl))
    case OtherEnv => None
  }

  /** With the intended handler every classified error reaches an `/api`
      client with its own 4xx code: 400 for database errors, 401 for token
      errors. */
  lemma IntendedClassifiedCodes(err: Err)
    ensures err.name == "CastError" || err.code == Some(11000) || err.name == "ValidationError" ==>
      HandleErrorIntended(err, Production, "/api/v1/users").value.code == 400
    ensures err.name in {"JsonWebTokenError", "TokenExpiredError"} && err.code != Some(11000) ==>
      HandleErrorIntended(err, Production, "/api/v1/users").value.code == 401
  {
    assert StartsWith("/api/v1/users", "/api");
  }
}
