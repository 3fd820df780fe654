/** The post and comment validator: it normalises `text` in the body it is
    given, then checks its length and its emptiness, the emptiness message
    overwriting the length message. */
module PostValidation {
  import opened Http
  import opened Validator

  const TextLength: string := "Text must be between 2 and 300 characters"
  const TextRequired: string := "Text field is required"

  /** The body as the validator leaves it: text is defaulted to '' and
      every other field is as it was. */
  function PostData(lib: Lib, input: Body): (data: Body)
    ensures data.Keys == input.Keys + {"text"}
    ensures forall k :: k in input && k != "text" ==> data[k] == input[k]
    ensures data["text"] == Defaulted(lib, input, "text")
  {
    input["text" := Defaulted(lib, input, "text")]
  }

  /** The error map the validator ends with: text is its only possible key,
      present exactly when the text is outside 2..300 characters. */
  function PostErrors(lib: Lib, input: Body): (errors: Errors)
    ensures errors.Keys <= {"text"}
    ensures var text := Defaulted(lib, input, "text");
      && ("text" in errors <==> |text| < 2 || 300 < |text|)
      && ("text" in errors ==> errors["text"] == if text == "" then TextRequired else TextLength)
    ensures errors == map[] <==> 2 <= |Defaulted(lib, input, "text")| <= 300
  {
    var text := Defaulted(lib, input, "text");
    if IsEmpty(text) then map["text" := TextRequired]
    else if !IsLength(text, 2, 300) then map["text" := TextLength]
    else map[]
  }

  /** `validatePostInput(data)`: `data` is the body after the in-place
      normalisation, `errors` and `isValid` the two fields of the returned
      object. */
  method ValidatePostInput(lib: Lib, input: Body) returns (data: Body, errors: Errors, isValid: bool)
    ensures data == PostData(lib, input)
    ensures errors == PostErrors(lib, input)
    ensures isValid <==> errors == map[]
  {
    data := input;
    errors := map[];

    data := data["text" := Defaulted(lib, data, "text")];

    // Text
    if !IsLength(data["text"], 2, 300) {
      errors := errors["text" := TextLength];
    }
    if IsEmpty(data["text"]) {
      errors := errors["text" := TextRequired];
    }

    isValid := errors == map[];
  }
}
