/** The input-directory settings type (oskar::InputDirectory): a default
    and a value, both empty at first; text is stored with its surrounding
    white space removed by oskar_settings_utility_string_trim, which is
    supplied with the object. */
module InputDirectory {

  class InputDirectory {
    const trim: string -> string
    var defaultValue: string
    var value: string

    constructor (trim: string -> string)
      ensures this.trim == trim && defaultValue == "" && value == ""
    {
      this.trim := trim;
      defaultValue, value := "", "";
    }

    /** init: accepts any parameters and changes nothing. */
    method Init(s: string) returns (ok: bool)
      ensures ok
    {
      return true;
    }

    /** set_default: the trimmed text becomes the default and the value. */
    method SetDefault(s: string) returns (ok: bool)
      modifies this
      ensures ok && defaultValue == trim(s) && value == trim(s)
      ensures IsDefault()
    {
      defaultValue := trim(s);
      value := defaultValue;
      return true;
    }

    /** set_value: the trimmed text becomes the value only. */
    method SetValue(s: string) returns (ok: bool)
      modifies this
      ensures ok && value == trim(s) && defaultValue == old(defaultValue)
    {
      value := trim(s);
      return true;
    }

    function GetDefault(): string
      reads this
    {
      defaultValue
    }

    function GetValue(): string
      reads this
    {
      value
    }

    predicate IsDefault()
      reads this
    {
      value == defaultValue
    }

    /** operator== compares values only; operator> never holds. */
    predicate Equals(other: InputDirectory)
      reads this, other
    {
      value == other.value
    }

    predicate Greater(other: InputDirectory)
    {
      false
    }
  }

  /** is_default compares the value with the default, == compares the
      values alone, so two directories with different defaults can be
      equal, and a directory is never greater than another. */
  lemma ComparisonsUseValues(a: InputDirectory, b: InputDirectory)
    ensures a.IsDefault() <==> a.GetValue() == a.GetDefault()
    ensures a.Equals(b) <==> a.GetValue() == b.GetValue()
    ensures a.Equals(b) && a.IsDefault() && !b.IsDefault() ==> a.GetDefault() != b.GetDefault()
    ensures !a.Greater(b)
  {
  }
}
