/**
 The error taxonomy of the service (src/error.rs): a closed set of error
 kinds, their total mappings to an error code, an HTTP status, an optional
 detail and a type URL, the translation of storage errors into domain
 errors, and the problem document sent to the client.
 */
module Errors {

  import opened Wrappers
  import opened Model
  import Decimal

  /** Foreign failure payloads, kept opaque: only the text the service reads from them. */
  datatype JsonRejection = JsonRejection(bodyText: string)
  datatype PathRejection = PathRejection(bodyText: string)
  datatype ValidationErrors = ValidationErrors(rendered: string)

  /** A storage (sqlx) error: only "no row" is told apart from the others. */
  datatype DbError = RowNotFound | OtherDbError(description: string)

  datatype Error =
    | ResourceNotFound(name: string, id: U32)
    | JSONExtractor(jsonRejection: JsonRejection)
    | PathExtractor(pathRejection: PathRejection)
    | Validator(validationErrors: ValidationErrors)
    | Unexpected(cause: DbError)

  /** The crate-wide `Result<T>`: a value or an `Error`. */
  datatype Result<T> = Success(value: T) | Failure(error: Error)

  const NOT_FOUND: nat := 404
  const BAD_REQUEST: nat := 400
  const INTERNAL_SERVER_ERROR: nat := 500

  const CODE_NOT_FOUND: string := "error.entity.not-found"
  const CODE_PAYLOAD_INVALID: string := "error.payload.invalid"
  const CODE_PATH_INVALID: string := "error.path-parms.invalid"
  const CODE_UNEXPECTED: string := "error.unexpected"

  const TYPE_URL_SCHEME: string := "type://"

  /** The kinds caused by what the client sent. */
  predicate IsClientInput(e: Error) {
    e.JSONExtractor? || e.PathExtractor? || e.Validator?
  }

  /** `Error::error_code`; each code belongs to exactly the kinds listed with it. */
  function ErrorCode(e: Error): (code: string)
    ensures code == CODE_NOT_FOUND <==> e.ResourceNotFound?
    ensures code == CODE_PAYLOAD_INVALID <==> (e.JSONExtractor? || e.Validator?)
    ensures code == CODE_PATH_INVALID <==> e.PathExtractor?
    ensures code == CODE_UNEXPECTED <==> e.Unexpected?
  {
    match e
    case ResourceNotFound(_, _) => CODE_NOT_FOUND
    case JSONExtractor(_) => CODE_PAYLOAD_INVALID
    case Validator(_) => CODE_PAYLOAD_INVALID
    case PathExtractor(_) => CODE_PATH_INVALID
    case _ => CODE_UNEXPECTED
  }

  /** `Error::status_code`, consistent with the error code. */
  function StatusCode(e: Error): (status: nat)
    ensures status == NOT_FOUND <==> e.ResourceNotFound?
    ensures status == BAD_REQUEST <==> IsClientInput(e)
    ensures status == INTERNAL_SERVER_ERROR <==> ErrorCode(e) == CODE_UNEXPECTED
    ensures status == NOT_FOUND || status == BAD_REQUEST || status == INTERNAL_SERVER_ERROR
  {
    match e
    case ResourceNotFound(_, _) => NOT_FOUND
    case JSONExtractor(_) => BAD_REQUEST
    case PathExtractor(_) => BAD_REQUEST
    case Validator(_) => BAD_REQUEST
    case _ => INTERNAL_SERVER_ERROR
  }

  /** `Error::details`: diagnostic text, present for the client-input kinds only. */
  function Details(e: Error): (d: Option<string>)
    ensures d.Some? <==> IsClientInput(e)
    ensures e.JSONExtractor? ==> d == Some(e.jsonRejection.bodyText)
    ensures e.PathExtractor? ==> d == Some(e.pathRejection.bodyText)
    ensures e.Validator? ==> d == Some(e.validationErrors.rendered)
  {
    match e
    case JSONExtractor(r) => Some(r.bodyText)
    case PathExtractor(r) => Some(r.bodyText)
    case Validator(v) => Some(v.rendered)
    case _ => None
  }

  /** `Error::type_url`: the scheme followed by the error code. */
  function TypeUrl(e: Error): (url: string)
    ensures |url| == |TYPE_URL_SCHEME| + |ErrorCode(e)|
    ensures url[..|TYPE_URL_SCHEME|] == TYPE_URL_SCHEME
    ensures url[|TYPE_URL_SCHEME|..] == ErrorCode(e)
  {
    TYPE_URL_SCHEME + ErrorCode(e)
  }

  /**
   The `Display` message of each kind, used as the problem title: a fixed
   message per kind, except that the not-found title is built from the entity
   name and the decimal id, which can be read back from it.
   */
  function Title(e: Error): (title: string)
    ensures title == "Error extracting json payload" <==> e.JSONExtractor?
    ensures title == "Error extracting path parameters" <==> e.PathExtractor?
    ensures title == "Invalid request body" <==> e.Validator?
    ensures title == "Unexpected error" <==> e.Unexpected?
    ensures e.ResourceNotFound? ==>
              var p := NotFoundPrefix(e.name);
              && |p| + |NOT_FOUND_SUFFIX| < |title|
              && title[..|p|] == p
              && title[|title| - |NOT_FOUND_SUFFIX|..] == NOT_FOUND_SUFFIX
              && title[|p|..|title| - |NOT_FOUND_SUFFIX|] == Decimal.ToDecimal(e.id)
              && Decimal.AllDigits(title[|p|..|title| - |NOT_FOUND_SUFFIX|])
              && Decimal.ParseDecimal(title[|p|..|title| - |NOT_FOUND_SUFFIX|]) == e.id
              && (title[|p|] == '0' ==> e.id == 0 && |title| == |p| + 1 + |NOT_FOUND_SUFFIX|)
  {
    match e
    case ResourceNotFound(name, id) =>
      var t := NotFoundTitle(name, id);
      var p := NotFoundPrefix(name);
      Decimal.ParseToDecimal(id);
      assert t[|p|..|t| - |NOT_FOUND_SUFFIX|] == Decimal.ToDecimal(id);
      assert t[0] == 'R';
      t
    case JSONExtractor(_) => "Error extracting json payload"
    case PathExtractor(_) => "Error extracting path parameters"
    case Validator(_) => "Invalid request body"
    case Unexpected(_) => "Unexpected error"
  }

  function NotFoundTitle(name: string, id: U32): string {
    NotFoundPrefix(name) + Decimal.ToDecimal(id) + NOT_FOUND_SUFFIX
  }

  function NotFoundPrefix(name: string): string {
    "Requested resource '" + name + "' with ID: "
  }

  const NOT_FOUND_SUFFIX: string := " not found"

  /** `Error::from_with_context`: "no row" becomes not-found with the caller's name and id. */
  function FromWithContext(db: DbError, entityName: string, entityId: U32): (e: Error)
    ensures e.ResourceNotFound? <==> db.RowNotFound?
    ensures e.ResourceNotFound? ==> e.name == entityName && e.id == entityId
    ensures !e.ResourceNotFound? ==> e.Unexpected? && e.cause == db
  {
    match db
    case RowNotFound => ResourceNotFound(entityName, entityId)
    case _ => Unexpected(db)
  }

  /** `From<sqlx::Error> for Error`: without context every storage error is unexpected. */
  function FromDbError(db: DbError): (e: Error)
    ensures e.Unexpected? && e.cause == db
    ensures StatusCode(e) == INTERNAL_SERVER_ERROR
  {
    Unexpected(db)
  }

  /** The problem document (`ApiError`) sent to the client. */
  datatype ApiProblem = ApiProblem(
    status: nat,
    title: string,
    typeUrl: string,
    errorCode: string,
    message: Option<string>)

  /** `From<Error> for ApiError`: the builder, with the message added only when there are details. */
  function ToApiProblem(e: Error): (p: ApiProblem)
    ensures p.status == StatusCode(e)
    ensures p.title == Title(e)
    ensures p.typeUrl == TypeUrl(e)
    ensures p.errorCode == ErrorCode(e)
    ensures p.message == Details(e)
  {
    var built := ApiProblem(StatusCode(e), Title(e), TypeUrl(e), ErrorCode(e), None);
    match Details(e)
    case Some(detail) => built.(message := Some(detail))
    case None => built
  }

  /** The type URL is determined by, and determines, the error code. */
  lemma TypeUrlMatchesCode(a: Error, b: Error)
    ensures TypeUrl(a) == TypeUrl(b) <==> ErrorCode(a) == ErrorCode(b)
  {
    if TypeUrl(a) == TypeUrl(b) {
      assert ErrorCode(a) == TypeUrl(a)[|TYPE_URL_SCHEME|..];
    }
  }

  /** Outside "no row", the context-aware path and the plain conversion agree. */
  lemma ContextMattersOnlyForRowNotFound(db: DbError, name: string, id: U32)
    ensures db.RowNotFound? <==> FromWithContext(db, name, id) != FromDbError(db)
  {
  }

  /** Every kind except not-found has a fixed title, whatever its payload (same code and kind, same title). */
  lemma TitleIgnoresPayload(a: Error, b: Error)
    requires !a.ResourceNotFound? && ErrorCode(a) == ErrorCode(b) && a.Validator? == b.Validator?
    ensures Title(a) == Title(b)
  {
  }

  /** The not-found title of a given entity tells which id was looked up. */
  lemma NotFoundTitleDeterminesId(name: string, a: U32, b: U32)
    requires NotFoundTitle(name, a) == NotFoundTitle(name, b)
    ensures a == b
  {
    var p := NotFoundPrefix(name);
    var da, db := Decimal.ToDecimal(a), Decimal.ToDecimal(b);
    var ta, tb := NotFoundTitle(name, a), NotFoundTitle(name, b);
    assert |da| == |db|;
    assert ta[|p|..|p| + |da|] == da;
    assert tb[|p|..|p| + |db|] == db;
    Decimal.ToDecimalInjective(a, b);
  }

  /** An unexpected error reaches the client as the same opaque problem whatever its cause. */
  lemma UnexpectedProblemHidesCause(c1: DbError, c2: DbError)
    ensures ToApiProblem(Unexpected(c1)) == ToApiProblem(Unexpected(c2))
    ensures ToApiProblem(Unexpected(c1)).message == None
    ensures ToApiProblem(Unexpected(c1)).status == INTERNAL_SERVER_ERROR
  {
  }
}
