// The backend's error objects, the replies its handlers send, and the
// request bodies they read. Status codes are those of RFC 9110: 400 (section
// 15.5.1), 401 (15.5.2), 403 (15.5.4), 404 (15.5.5) and 422 (15.5.21).

/** The exception classes of Backend/app/api/utils.py and Backend/app.py.
    Both files declare `ValidationError` and `UnauthorizedError` with the
    same default message, status and `to_dict`; Backend/app.py adds the base
    class `MealAPIError` (status 400) and two more subclasses. */
module ApiErrors {
  import opened Common

  /** A value in an error dictionary. */
  datatype DictValue = Text(text: string) | Code(code: nat)

  type Dict = map<string, DictValue>

  /** An exception object: its `message`, `status_code` and `payload`. */
  datatype ApiError = ApiError(message: string, statusCode: nat, payload: Option<Dict>)

  function PayloadKeys(e: ApiError): set<string> {
    if e.payload.Some? then e.payload.value.Keys else {}
  }

  /** `to_dict`: a copy of the payload (none counts as empty) in which
      `message` and `status_code` are then set. */
  function ToDict(e: ApiError): (d: Dict)
    ensures d.Keys == PayloadKeys(e) + {"message", "status_code"}
    ensures d["message"] == Text(e.message) && d["status_code"] == Code(e.statusCode)
    ensures forall k :: k in PayloadKeys(e) && k != "message" && k != "status_code" ==> d[k] == e.payload.value[k]
  {
    var base: Dict := if e.payload.Some? then e.payload.value else map[];
    base["message" := Text(e.message)]["status_code" := Code(e.statusCode)]
  }

  /** Without a payload the dictionary has exactly the two keys. */
  lemma ToDictWithoutPayload(e: ApiError)
    requires e.payload.None?
    ensures ToDict(e) == map["message" := Text(e.message), "status_code" := Code(e.statusCode)]
  {
  }

  /** Feeding an error's own dictionary back in as its payload changes
      nothing: the two keys are overwritten with the same values. */
  lemma ToDictStable(e: ApiError)
    ensures ToDict(e.(payload := Some(ToDict(e)))) == ToDict(e)
  {
  }

  const NotFoundMessage: string := "Resource not found"
  const UnauthorizedMessage: string := "Unauthorized access"
  const ForbiddenMessage: string := "Forbidden"
  const ValidationMessage: string := "Validation error"

  /** `MealAPIError(message)`: status 400 unless one is given. */
  function MealApiError(message: string): ApiError {
    ApiError(message, 400, None)
  }

  function NotFoundError(message: string): ApiError {
    ApiError(message, 404, None)
  }

  function UnauthorizedError(message: string): ApiError {
    ApiError(message, 401, None)
  }

  function ForbiddenError(message: string): ApiError {
    ApiError(message, 403, None)
  }

  function ValidationError(message: string): ApiError {
    ApiError(message, 422, None)
  }

  /** The defaults each class declares, and that `ValidationError` and
      `UnauthorizedError` render their status into their dictionary. */
  lemma ErrorClassDefaults()
    ensures ValidationError(ValidationMessage).statusCode == 422
    ensures ToDict(ValidationError(ValidationMessage)) == map["message" := Text("Validation error"), "status_code" := Code(422)]
    ensures ToDict(UnauthorizedError(UnauthorizedMessage)) == map["message" := Text("Unauthorized access"), "status_code" := Code(401)]
    ensures ToDict(NotFoundError(NotFoundMessage))["status_code"] == Code(404)
    ensures ToDict(ForbiddenError(ForbiddenMessage))["status_code"] == Code(403)
    ensures ToDict(MealApiError(""))["status_code"] == Code(400)
  {
  }
}

/** What a handler sends back. */
module Http {
  import ApiErrors

  datatype Body =
    | Message(text: string)               // {"message": text}
    | Fields(dict: ApiErrors.Dict)         // an error dictionary
    | Row(id: nat)                         // one row's `to_dict()`
    | MessageRow(text: string, id: nat)    // {"message": text, <entity>: the row}
    | TokenRow(text: string, id: nat)      // {"message": text, "access_token": …, "user": the row}
    | Rows(ids: set<nat>)                  // a list of rows; their order is not modelled
    | NotFoundPage                         // Flask's own 404 page, in the blueprint app, which registers no 404 handler
    | ServerErrorPage                      // Flask's own 500 page in the blueprint app, for an exception nobody handles

  datatype Reply = Reply(status: nat, body: Body)

  predicate Succeeded(r: Reply) {
    r.status == 200 || r.status == 201
  }
}

/** The JSON bodies the handlers read. A field is `None` when the key is
    absent; a present field has the type the handler expects. */
module Requests {
  import opened Common

  /** Python truthiness of an optional number: absent and 0 are falsy. */
  predicate NumberTruthy(x: Option<int>) {
    x.Some? && x.value != 0
  }

  datatype RegisterBody = RegisterBody(name: Option<string>, email: Option<string>, password: Option<string>, role: Option<string>)

  datatype LoginBody = LoginBody(email: Option<string>, password: Option<string>)

  datatype UserChanges = UserChanges(name: Option<string>, email: Option<string>, password: Option<string>, role: Option<string>)

  datatype OrderBody = OrderBody(menuItemId: Option<int>, quantity: Option<int>)

  datatype OrderChanges = OrderChanges(quantity: Option<int>, status: Option<string>)

  /** `data.get(key, default)`. */
  function GetOr<T>(x: Option<T>, default: T): (v: T)
    ensures x.Some? ==> v == x.value
    ensures x.None? ==> v == default
  {
    if x.Some? then x.value else default
  }
}
