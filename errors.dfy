/**
 * The handlers' error type (src/error.rs): what each kind of failure is,
 * how it is displayed, which HTTP status it gets and which JSON body is sent.
 */
module Errors {
  import opened Wrappers
  import Text

  /** The JSON body of a user-facing error: an optional machine-readable type
      and a message. */
  datatype ErrorMessage = ErrorMessage(kind: Option<string>, message: string)

  /** `Error`. `Internal` wraps an opaque library error (anyhow, sea-orm,
      bcrypt, handlebars, lettre, reqwest, ...); only a description is kept. */
  datatype Error =
    | NotFound
    | LoginRequired
    | User(user: ErrorMessage)
    | Fields(fields: map<string, ErrorMessage>)
    | Internal(cause: string)

  /** The handlers' `Result<T, Error>`; the failure-compatible shape lets the
      model use `:-` where the source uses `?`. */
  datatype Result<T> = Ok(value: T) | Err(error: Error)
  {
    predicate IsFailure() { Err? }

    function PropagateFailure<U>(): Result<U>
      requires Err?
    {
      Err(error)
    }

    function Extract(): T
      requires Ok?
    {
      value
    }
  }

  /** `Error::new`: a user error without a type. */
  function New(message: string): Error
  {
    User(ErrorMessage(None, message))
  }

  /** `Error::new_with_type`. */
  function NewWithType(kind: string, message: string): Error
  {
    User(ErrorMessage(Some(kind), message))
  }

  /** A `validator::ValidationError`: a code and an optional message. */
  datatype ValidationError = ValidationError(code: string, message: Option<string>)

  /** The field errors of `validator::ValidationErrors`, per field in the
      order the validators ran. */
  type ValidationErrors = map<string, seq<ValidationError>>

  /** `ValidationErrors::add`: appends an error to a field. */
  function AddError(v: ValidationErrors, field: string, e: ValidationError): (r: ValidationErrors)
    ensures r.Keys == v.Keys + {field}
    ensures r[field] == (if field in v then v[field] else []) + [e]
    ensures forall f :: f in v && f != field ==> r[f] == v[f]
  {
    v[field := (if field in v then v[field] else []) + [e]]
  }

  /** The messages present among a field's errors, in order. */
  function Messages(errors: seq<ValidationError>): (r: seq<string>)
    ensures |r| <= |errors|
    ensures forall m :: m in r <==> exists i :: 0 <= i < |errors| && errors[i].message == Some(m)
    ensures r == [] <==> forall i :: 0 <= i < |errors| ==> errors[i].message.None?
  {
    if |errors| == 0 then []
    else
      Messages(errors[..|errors| - 1]) +
        (match errors[|errors| - 1].message
         case Some(m) => [m]
         case None => [])
  }

  /** `From<ValidationErrors> for Error`: one entry per field, typed "server",
      holding the field's messages joined with ", ". */
  function FromValidation(v: ValidationErrors): (e: Error)
    ensures e.Fields? && e.fields.Keys == v.Keys
    ensures forall f :: f in v ==> e.fields[f].kind == Some("server")
  {
    Fields(map f | f in v :: ErrorMessage(Some("server"), Text.Join(Messages(v[f]), ", ")))
  }

  /** A field's message grows with each error added to it: the new message
      is appended after ", ", or stands alone when the field had none; an
      error without a message leaves the text as it was. */
  lemma AddedMessageJoined(v: ValidationErrors, field: string, e: ValidationError)
    ensures var errs := if field in v then v[field] else [];
            var before := Text.Join(Messages(errs), ", ");
            var after := FromValidation(AddError(v, field, e)).fields[field].message;
            && (field in v ==> before == FromValidation(v).fields[field].message)
            && (e.message.None? ==> after == before)
            && (e.message.Some? && Messages(errs) == [] ==> after == e.message.value)
            && (e.message.Some? && Messages(errs) != [] ==> after == before + ", " + e.message.value)
  {
    var errs := if field in v then v[field] else [];
    var more := errs + [e];
    var w := AddError(v, field, e);
    assert w[field] == more;
    assert FromValidation(w).fields[field].message == Text.Join(Messages(more), ", ");
    assert more[..|more| - 1] == errs;
    if e.message.Some? {
      assert Messages(more) == Messages(errs) + [e.message.value];
      if Messages(errs) != [] {
        Text.JoinAppend(Messages(errs), e.message.value, ", ");
      }
    } else {
      assert Messages(more) == Messages(errs);
    }
  }

  /** A field none of whose errors carries a message gets an empty text. */
  lemma NoMessagesEmptyText(v: ValidationErrors, field: string)
    requires field in v && forall i :: 0 <= i < |v[field]| ==> v[field][i].message.None?
    ensures FromValidation(v).fields[field] == ErrorMessage(Some("server"), "")
  {
  }

  /** A validation outcome: `Ok` when no validator complained. */
  function Validated(v: ValidationErrors): (r: Result<()>)
    ensures r.Ok? <==> v == map[]
    ensures r.Err? ==> r.error.Fields? && r.error.fields.Keys == v.Keys
  {
    if v == map[] then Ok(()) else Err(FromValidation(v))
  }

  /** `#[validate(length(min = .., max = .., message = ..))]` on one string
      field, whose length `validator` counts in characters. */
  function LengthErrors(field: string, value: string, min: nat, max: nat, message: string): (v: ValidationErrors)
    ensures v == map[] <==> min <= |value| <= max
    ensures v != map[] ==> v.Keys == {field} && v[field] == [ValidationError("length", Some(message))]
  {
    if min <= |value| <= max then map[]
    else
      var v := map[field := [ValidationError("length", Some(message))]];
      assert field in v;
      v
  }

  /** `Error::field`: a server-side validation failure of one field. */
  function Field(name: string, message: string): Error
  {
    FromValidation(map[name := [ValidationError("server_validation", Some(message))]])
  }

  /** A field error is a single "server"-typed message for exactly that field. */
  lemma FieldIsSingleMessage(name: string, message: string)
    ensures Field(name, message) == Fields(map[name := ErrorMessage(Some("server"), message)])
  {
    var errs := [ValidationError("server_validation", Some(message))];
    assert errs[..0] == [];
    assert Messages(errs) == [message];
    assert Text.Join([message], ", ") == message;
    var e := Field(name, message);
    assert e.fields.Keys == {name};
    assert e.fields[name] == ErrorMessage(Some("server"), message);
  }

  /** `Display for Error`. */
  function Display(e: Error): (s: string)
    ensures e.User? ==> s == e.user.message
  {
    match e
    case NotFound => "Not Found"
    case User(m) => m.message
    case LoginRequired => "Unauthorized"
    case Fields(_) => "Bad Request"
    case Internal(_) => "An internal error occurred. Please try again later."
  }

  /** `ResponseError::status_code`. */
  function StatusCode(e: Error): (code: nat)
    ensures code == 400 <==> e.User? || e.Fields?
    ensures code == 500 <==> e.Internal?
    ensures code == 404 <==> e.NotFound?
    ensures code == 401 <==> e.LoginRequired?
  {
    match e
    case NotFound => 404
    case LoginRequired => 401
    case User(_) => 400
    case Fields(_) => 400
    case Internal(_) => 500
  }

  datatype ErrorResponse = ErrorResponse(status: nat, body: Error)

  /** `ResponseError::error_response`: the JSON error body and its status. The
      internal cause is never serialised; internal and not-found errors become
      typed user messages, and every other error is sent as it is. */
  function Respond(e: Error): (r: ErrorResponse)
    ensures r.status == StatusCode(e)
    ensures !r.body.Internal? && !r.body.NotFound?
    ensures e.Internal? ==> r.body.User? && r.body.user.kind == Some("internal_server_error")
    ensures e.NotFound? ==> r.body.User? && r.body.user.kind == Some("not_found")
    ensures !e.Internal? && !e.NotFound? ==> r.body == e
  {
    match e
    case Internal(_) =>
      ErrorResponse(StatusCode(e), User(ErrorMessage(Some("internal_server_error"), Display(e))))
    case NotFound =>
      ErrorResponse(StatusCode(e),
        User(ErrorMessage(Some("not_found"), "The requested resource was not found on the server.")))
    case _ => ErrorResponse(StatusCode(e), e)
  }

  /** The message of `Error::new` reaches the client unchanged, with status 400. */
  lemma NewReachesClient(message: string)
    ensures Respond(New(message)) == ErrorResponse(400, User(ErrorMessage(None, message)))
    ensures Display(New(message)) == message
  {
  }

  /** A field error reaches the client as that field's message, with status 400. */
  lemma FieldReachesClient(name: string, message: string)
    ensures Respond(Field(name, message)).status == 400
    ensures Respond(Field(name, message)).body.fields == map[name := ErrorMessage(Some("server"), message)]
  {
    FieldIsSingleMessage(name, message);
  }

  /** Every library failure converted with `From` is internal: status 500 and a
      generic message, whatever its cause. */
  lemma InternalHidesCause(a: string, b: string)
    ensures Respond(Internal(a)) == Respond(Internal(b))
    ensures Respond(Internal(a)).status == 500
  {
  }
}
