/**
 * The SDK's exception hierarchy as one datatype of error kinds. The
 * constructors reproduce the message defaulting of `LawgException`
 * (`message or self.message`) and the status code carried by HTTP errors.
 */
module Exceptions {
  import opened Json

  /** The HTTP exception classes: the generic base and its six subclasses. */
  datatype HttpKind =
    | Generic
    | Conflict
    | BadRequest
    | Unauthorized
    | NotFound
    | InternalServerError
    | Forbidden

  /** Everything the core can raise. The first six are the SDK's own
      exceptions; the last three are Python/marshmallow exceptions that the
      core lets escape. */
  datatype Error =
    | Lawg(message: Value)
    | Http(kind: HttpKind, message: Value, statusCode: int)
    | AlreadyDeleted(message: Value)
    | EmptyBody(message: Value)
    | IdMissing(message: Value)
    | EventUndefined(message: Value)
    | Validation(fields: set<string>)  // marshmallow.ValidationError, keyed by the failing fields
    | Key(key: string)                 // KeyError
    | Type                             // TypeError

  const LAWG_DEFAULT := "An error occurred."
  const HTTP_DEFAULT := "An HTTP error occurred."
  const EMPTY_BODY_DEFAULT := "The request body is empty."
  const ID_MISSING_DEFAULT := "The log ID is missing."

  /** `message or default`: the given message when it is truthy. */
  function MessageOr(given: Value, default: string): (m: Value)
    requires default != ""
    ensures Truthy(m)
    ensures Truthy(given) ==> m == given
    ensures !Truthy(given) ==> m == Str(default)
  {
    if Truthy(given) then given else Str(default)
  }

  /** `LawgException(message)`. */
  function NewLawgException(message: Value := Null): (e: Error)
    ensures e.Lawg? && Truthy(e.message)
    ensures Truthy(message) ==> e.message == message
    ensures !Truthy(message) ==> e.message == Str(LAWG_DEFAULT)
  {
    Lawg(MessageOr(message, LAWG_DEFAULT))
  }

  /** `LawgHTTPException(status_code=..., message=...)` and its six
      subclasses, which differ only in `kind`: the status code is stored as
      given and the message defaults to the HTTP default. */
  function NewHttp(kind: HttpKind, statusCode: int, message: Value := Null): (e: Error)
    ensures e.Http? && e.kind == kind && e.statusCode == statusCode
    ensures Truthy(e.message)
    ensures Truthy(message) ==> e.message == message
    ensures !Truthy(message) ==> e.message == Str(HTTP_DEFAULT)
  {
    Http(kind, MessageOr(message, HTTP_DEFAULT), statusCode)
  }

  /** `LawgAlreadyDeleted(type)`, whose type defaults to "log". */
  function NewAlreadyDeleted(resource: string := "log"): (e: Error)
    ensures e.AlreadyDeleted? && e.message.Str?
    ensures e.message.s == "The " + resource + " has already been deleted."
  {
    AlreadyDeleted(Str("The " + resource + " has already been deleted."))
  }

  /** `LawgEmptyBody(message)`. */
  function NewEmptyBody(message: Value := Null): (e: Error)
    ensures e.EmptyBody? && Truthy(e.message)
    ensures Truthy(message) ==> e.message == message
    ensures !Truthy(message) ==> e.message == Str(EMPTY_BODY_DEFAULT)
  {
    EmptyBody(MessageOr(message, EMPTY_BODY_DEFAULT))
  }

  /** `LawgIDMissing(message)`. */
  function NewIdMissing(message: Value := Null): (e: Error)
    ensures e.IdMissing? && Truthy(e.message)
    ensures Truthy(message) ==> e.message == message
    ensures !Truthy(message) ==> e.message == Str(ID_MISSING_DEFAULT)
  {
    IdMissing(MessageOr(message, ID_MISSING_DEFAULT))
  }

  /** The undefined-event error, built like any `LawgException`. */
  function NewEventUndefined(event: Value): (e: Error)
    ensures e.EventUndefined? && Truthy(e.message)
    ensures Truthy(event) ==> e.message == event
  {
    EventUndefined(MessageOr(event, LAWG_DEFAULT))
  }
}
