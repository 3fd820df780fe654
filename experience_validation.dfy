/** The experience validator: it normalises title, company and from in
    the body it is given, then checks them one after another into an
    `errors` map, where a later check overwrites the message of an earlier
    one on the same key. */
module ExperienceValidation {
  import opened Http
  import opened Validator

  const TitleRequired: string := "Job title field is required"
  const CompanyRequired: string := "Company field is required"
  const CompanyTooShort: string := "Password must at least 2 characters"
  const FromRequired: string := "From date field is required"

  /** The body as the validator leaves it: title, company and from are
      defaulted to '' and every other field is as it was. */
  function ExperienceData(lib: Lib, input: Body): (data: Body)
    ensures data.Keys == input.Keys + {"title", "company", "from"}
    ensures forall k :: k in input && k != "title" && k != "company" && k != "from" ==> data[k] == input[k]
    ensures data["title"] == Defaulted(lib, input, "title")
    ensures data["company"] == Defaulted(lib, input, "company")
    ensures data["from"] == Defaulted(lib, input, "from")
  {
    input["title" := Defaulted(lib, input, "title")]
         ["company" := Defaulted(lib, input, "company")]
         ["from" := Defaulted(lib, input, "from")]
  }

  /** The error map the validator ends with. Only title, company and from
      can be keys; "Company field is required" never survives, because the
      length check that follows it fails on every empty company. */
  function ExperienceErrors(lib: Lib, input: Body): (errors: Errors)
    ensures errors.Keys <= {"title", "company", "from"}
    ensures "title" in errors <==> Defaulted(lib, input, "title") == ""
    ensures "title" in errors ==> errors["title"] == TitleRequired
    ensures "company" in errors <==> |Defaulted(lib, input, "company")| < 2
    ensures "company" in errors ==> errors["company"] == CompanyTooShort
    ensures "from" in errors <==> Defaulted(lib, input, "from") == ""
    ensures "from" in errors ==> errors["from"] == FromRequired
    ensures errors == map[] <==>
      Defaulted(lib, input, "title") != "" && |Defaulted(lib, input, "company")| >= 2 && Defaulted(lib, input, "from") != ""
  {
    var title := Defaulted(lib, input, "title");
    var company := Defaulted(lib, input, "company");
    var from := Defaulted(lib, input, "from");
    var errors := (if IsEmpty(title) then map["title" := TitleRequired] else map[])
      + (if !HasMinLength(company, 2) then map["company" := CompanyTooShort] else map[])
      + (if IsEmpty(from) then map["from" := FromRequired] else map[]);
    assert errors == map[] <==> "title" !in errors && "company" !in errors && "from" !in errors;
    errors
  }

  /** `validateExperienceInput(data)`: `data` is the body after the
      in-place normalisation, `errors` and `isValid` the two fields of the
      returned object. */
  method ValidateExperienceInput(lib: Lib, input: Body) returns (data: Body, errors: Errors, isValid: bool)
    ensures data == ExperienceData(lib, input)
    ensures errors == ExperienceErrors(lib, input)
    ensures isValid <==> errors == map[]
  {
    data := input;
    errors := map[];

    data := data["title" := Defaulted(lib, data, "title")];
    data := data["company" := Defaulted(lib, data, "company")];
    data := data["from" := Defaulted(lib, data, "from")];
    assert data == ExperienceData(lib, input);
    ghost var title, company, from := data["title"], data["company"], data["from"];

    // Title
    if IsEmpty(data["title"]) {
      errors := errors["title" := TitleRequired];
    }
    assert errors == if IsEmpty(title) then map["title" := TitleRequired] else map[];
    ghost var afterTitle := errors;

    // Company
    if IsEmpty(data["company"]) {
      errors := errors["company" := CompanyRequired];
    }
    if !HasMinLength(data["company"], 2) {
      errors := errors["company" := CompanyTooShort];
    }
    assert errors == afterTitle + if !HasMinLength(company, 2) then map["company" := CompanyTooShort] else map[];
    ghost var afterCompany := errors;

    // From
    if IsEmpty(data["from"]) {
      errors := errors["from" := FromRequired];
    }
    assert errors == afterCompany + if IsEmpty(from) then map["from" := FromRequired] else map[];

    isValid := errors == map[];
  }
}
