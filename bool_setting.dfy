/** The boolean settings type (oskar::Bool): a default and a value, both
    false at first; text sets them to whether it starts with "TRUE" as
    oskar_settings_utility_string_starts_with decides (with its
    case-sensitivity flag off), which is supplied with the object. */
module BoolSetting {

  class Bool {
    const startsWith: (string, string, bool) -> bool
    var defaultValue: bool
    var value: bool

    constructor (startsWith: (string, string, bool) -> bool)
      ensures this.startsWith == startsWith && !defaultValue && !value
    {
      this.startsWith := startsWith;
      defaultValue, value := false, false;
    }

    /** init: back to false and false, whatever the parameter string. */
    method Init(s: string) returns (ok: bool)
      modifies this
      ensures ok && !defaultValue && !value
    {
      defaultValue, value := false, false;
      return true;
    }

    /** set_default: the default and the value both take the text's truth. */
    method SetDefault(s: string) returns (ok: bool)
      modifies this
      ensures ok && defaultValue == startsWith(s, "TRUE", false) && value == defaultValue
      ensures IsDefault()
    {
      defaultValue := startsWith(s, "TRUE", false);
      value := defaultValue;
      return true;
    }

    /** set_value: only the value changes. */
    method SetValue(s: string) returns (ok: bool)
      modifies this
      ensures ok && value == startsWith(s, "TRUE", false) && defaultValue == old(defaultValue)
    {
      value := startsWith(s, "TRUE", false);
      return true;
    }

    function GetDefault(): (r: string)
      reads this
      ensures r == Text(defaultValue)
    {
      if defaultValue then "true" else "false"
    }

    function GetValue(): (r: string)
      reads this
      ensures r == Text(value)
    {
      if value then "true" else "false"
    }

    predicate IsDefault()
      reads this
    {
      value == defaultValue
    }

    /** operator== compares values only; operator> never holds. */
    predicate Equals(other: Bool)
      reads this, other
    {
      value == other.value
    }

    predicate Greater(other: Bool)
    {
      false
    }
  }

  /** The text of a truth value: exactly "true" or "false". */
  function Text(b: bool): (r: string)
    ensures r == "true" || r == "false"
    ensures r == "true" <==> b
  {
    if b then "true" else "false"
  }

  /** The text form reads back as the same truth value when starts_with
      ignores case as its flag asks: setting a Bool from another's text
      copies its value. */
  lemma TextRoundTrip(startsWith: (string, string, bool) -> bool, b: bool)
    requires startsWith("true", "TRUE", false) && !startsWith("false", "TRUE", false)
    ensures startsWith(Text(b), "TRUE", false) == b
  {
  }

  /** is_default ignores the default in ==: two Bools with the same value
      are equal however their defaults differ, and a Bool is never greater
      than another. */
  lemma EqualityIgnoresDefault(a: Bool, b: Bool)
    ensures a.Equals(b) <==> a.value == b.value
    ensures a.Equals(b) && a.IsDefault() && !b.IsDefault() ==> a.defaultValue != b.defaultValue
    ensures !a.Greater(b)
  {
  }
}
