/** The checks of the `validator` package the validators use, and the
    normalisation step they all begin with. */
module Validator {
  import opened Http

  /** `validator.isEmpty(s)`: the string has no characters. */
  predicate IsEmpty(s: string) {
    |s| == 0
  }

  /** `validator.isLength(s, { min })`; a Dafny `char` is a Unicode code
      point, which is what `isLength` counts. */
  predicate HasMinLength(s: string, min: nat) {
    min <= |s|
  }

  /** `validator.isLength(s, { min, max })`, counted in code points. */
  predicate IsLength(s: string, min: nat, max: nat) {
    min <= |s| <= max
  }

  /** `!isEmpty(data.key) ? data.key : ''`: the field when the `isEmpty`
      helper finds something in it, the empty string when it is absent or
      empty to that helper. */
  function Defaulted(lib: Lib, data: Body, key: string): (s: string)
    ensures key in data && !lib.blank(data[key]) ==> s == data[key]
    ensures key !in data || lib.blank(data[key]) ==> s == ""
  {
    if key in data && !lib.blank(data[key]) then data[key] else ""
  }
}
