/** Values exchanged at the boundary of the REST handlers: request bodies,
    error maps, the outcome of a handler, and the third-party primitives the
    handlers call but whose code is not part of this model. */
module Http {

  /** A request body: a field that is absent from the map is `undefined`. */
  type Body = map<string, string>

  /** The `errors` object a handler sends back: field name to message. */
  type Errors = map<string, string>

  datatype Option<T> = None | Some(value: T)

  /** `body.key`, keeping the difference between absent and present. */
  function Get(body: Body, key: string): (r: Option<string>)
    ensures r.Some? <==> key in body
    ensures r.Some? ==> r.value == body[key]
  {
    if key in body then Some(body[key]) else None
  }

  /** `body.key || ''`: the value when it is a non-empty string, '' otherwise. */
  function OrEmpty(body: Body, key: string): (s: string)
    ensures key in body && body[key] != "" ==> s == body[key]
    ensures key !in body || body[key] == "" ==> s == ""
  {
    if key in body then body[key] else ""
  }

  /** lodash `_.pick(body, keys)`: the fields of `body` named in `keys`. */
  function Pick(body: Body, keys: set<string>): (r: Body)
    ensures r.Keys == body.Keys * keys
    ensures forall k :: k in r ==> r[k] == body[k]
  {
    map k | k in body && k in keys :: body[k]
  }

  /** What a handler sends. `Failed` is the catch block of every handler:
      status 400 with `{ message: error.message }`. */
  datatype Response<T> =
    | Ok(payload: T)              // status 200
    | BadRequest(errors: Errors)  // status 400 with an errors object
    | NotFound(errors: Errors)    // status 404 with an errors object
    | Failed(message: string)     // an exception caught by the handler

  /** The message of the ReferenceError thrown by an assignment to, or a read
      of, a variable named `errors` that was never declared. */
  const ErrorsNotDefined: string := "errors is not defined"

  /** What a validator hands back: the body after its in-place
      normalisation, the error map and the `isValid` flag. */
  datatype Checked = Checked(data: Body, errors: Errors, isValid: bool)

  /** The primitives whose code is not part of the model, as uninterpreted
      functions:
      - `blank`: the `isEmpty` helper applied to a string that is present (an
        absent field is always empty to it);
      - `isEmail`, `isMongoId`: the `validator` package's format checks;
      - `validateProfile`, `validateEducation`, `validateRegister`: the
        validators whose source is not part of the model;
      - `hash`, `compare`: bcrypt hashing and comparison (plain, hashed);
      - `avatarOf`: the gravatar URL for an email;
      - `sign`: the signed token for the claims (id, name, avatar). */
  datatype Lib = Lib(
    blank: string -> bool,
    isEmail: string -> bool,
    isMongoId: string -> bool,
    validateProfile: Body -> Checked,
    validateEducation: Body -> Checked,
    validateRegister: Body -> Checked,
    hash: string -> string,
    compare: (string, string) -> bool,
    avatarOf: string -> string,
    sign: (string, string, string) -> string)
}
