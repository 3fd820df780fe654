/** The login validator: it normalises email and password in the body it
    is given, then checks each twice, the second check overwriting the
    message of the first. */
module LoginValidation {
  import opened Http
  import opened Validator

  const EmailRequired: string := "Email field is required"
  const EmailInvalid: string := "Email is invalid"
  const PasswordRequired: string := "Password field is required"
  const PasswordLength: string := "Password must at least 8 characters"

  /** The body as the validator leaves it: email and password are
      defaulted to '' and every other field is as it was. */
  function LoginData(lib: Lib, input: Body): (data: Body)
    ensures data.Keys == input.Keys + {"email", "password"}
    ensures forall k :: k in input && k != "email" && k != "password" ==> data[k] == input[k]
    ensures data["email"] == Defaulted(lib, input, "email")
    ensures data["password"] == Defaulted(lib, input, "password")
  {
    input["email" := Defaulted(lib, input, "email")]
         ["password" := Defaulted(lib, input, "password")]
  }

  /** The error map the validator ends with. "Email field is required"
      survives only if `isEmail` accepts the empty string, and "Password
      field is required" never does: the length check after it fails on
      every empty password. */
  function LoginErrors(lib: Lib, input: Body): (errors: Errors)
    ensures errors.Keys <= {"email", "password"}
    ensures var email := Defaulted(lib, input, "email");
      && ("email" in errors <==> email == "" || !lib.isEmail(email))
      && ("email" in errors ==> errors["email"] == if lib.isEmail(email) then EmailRequired else EmailInvalid)
      && (email == "" && !lib.isEmail("") ==> errors["email"] == EmailInvalid)
    ensures var password := Defaulted(lib, input, "password");
      && ("password" in errors <==> !(8 <= |password| <= 30))
      && ("password" in errors ==> errors["password"] == PasswordLength)
    ensures errors == map[] <==>
      var email := Defaulted(lib, input, "email");
      email != "" && lib.isEmail(email) && 8 <= |Defaulted(lib, input, "password")| <= 30
  {
    var email := Defaulted(lib, input, "email");
    var password := Defaulted(lib, input, "password");
    var errors := (if !lib.isEmail(email) then map["email" := EmailInvalid]
       else if IsEmpty(email) then map["email" := EmailRequired]
       else map[])
      + (if !IsLength(password, 8, 30) then map["password" := PasswordLength] else map[]);
    assert errors == map[] <==> "email" !in errors && "password" !in errors;
    errors
  }

  /** `validateLoginInput(data)`: `data` is the body after the in-place
      normalisation, `errors` and `isValid` the two fields of the returned
      object. */
  method ValidateLoginInput(lib: Lib, input: Body) returns (data: Body, errors: Errors, isValid: bool)
    ensures data == LoginData(lib, input)
    ensures errors == LoginErrors(lib, input)
    ensures isValid <==> errors == map[]
  {
    data := input;
    errors := map[];

    data := data["email" := Defaulted(lib, data, "email")];
    data := data["password" := Defaulted(lib, data, "password")];
    assert data == LoginData(lib, input);
    ghost var email, password := data["email"], data["password"];

    // Email
    if IsEmpty(data["email"]) {
      errors := errors["email" := EmailRequired];
    }
    if !lib.isEmail(data["email"]) {
      errors := errors["email" := EmailInvalid];
    }
    ghost var emailErrors: Errors :=
      if !lib.isEmail(email) then map["email" := EmailInvalid]
      else if IsEmpty(email) then map["email" := EmailRequired]
      else map[];
    assert errors == emailErrors;

    // Password
    if IsEmpty(data["password"]) {
      errors := errors["password" := PasswordRequired];
    }
    if !IsLength(data["password"], 8, 30) {
      errors := errors["password" := PasswordLength];
    }
    assert errors == emailErrors + if !IsLength(password, 8, 30) then map["password" := PasswordLength] else map[];

    isValid := errors == map[];
  }
}
