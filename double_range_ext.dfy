/** The ranged double settings type with extended end strings
    (oskar::DoubleRangeExt), as its class documentation defines it: a value
    inside the inclusive range is kept as a double; one below the minimum
    becomes the minimum's extended string, or the minimum when that string
    is not set; one above the maximum likewise at the other end. */
module DoubleRangeExt {

  /** DBL_MAX of IEEE 754 binary64, (2 - 2^-52) * 2^1023. */
  const DblMax: real := (Pow2(1024) - Pow2(971)) as real

  function Pow2(n: nat): (r: nat)
    ensures r >= 1
  {
    if n == 0 then 1 else 2 * Pow2(n - 1)
  }

  /** The stored value is a double or a string. */
  datatype Value = DoubleValue(x: real) | StringValue(s: string)

  /** The value stored for x in the range [min, max] with the extended
      strings extMin and extMax (empty when not set). */
  function Clamp(x: real, min: real, max: real, extMin: string, extMax: string): Value
  {
    if x < min then (if extMin != "" then StringValue(extMin) else DoubleValue(min))
    else if x > max then (if extMax != "" then StringValue(extMax) else DoubleValue(max))
    else DoubleValue(x)
  }

  /** The range is inclusive: x is kept exactly when it lies in it, and a
      double that is stored always lies in it when the range is not
      empty; below the range the minimum's string or the minimum is
      stored, above it the maximum's string or the maximum. */
  lemma ClampSpec(x: real, min: real, max: real, extMin: string, extMax: string)
    ensures min <= x <= max ==> Clamp(x, min, max, extMin, extMax) == DoubleValue(x)
    ensures Clamp(x, min, max, extMin, extMax) == DoubleValue(x) ==> min <= x <= max || (x == min && extMin == "") || (x == max && extMax == "")
    ensures min <= max && Clamp(x, min, max, extMin, extMax).DoubleValue? ==>
      min <= Clamp(x, min, max, extMin, extMax).x <= max
    ensures x < min ==> Clamp(x, min, max, extMin, extMax) == if extMin != "" then StringValue(extMin) else DoubleValue(min)
    ensures min <= x && x > max ==> Clamp(x, min, max, extMin, extMax) == if extMax != "" then StringValue(extMax) else DoubleValue(max)
    ensures Clamp(x, min, max, extMin, extMax).StringValue? ==>
      Clamp(x, min, max, extMin, extMax).s in {extMin, extMax} && Clamp(x, min, max, extMin, extMax).s != ""
  {
  }

  /** Storing a stored double again changes nothing. */
  lemma ClampIdempotent(x: real, min: real, max: real, extMin: string, extMax: string)
    requires min <= max && Clamp(x, min, max, extMin, extMax).DoubleValue?
    ensures var y := Clamp(x, min, max, extMin, extMax).x;
      Clamp(y, min, max, extMin, extMax) == DoubleValue(y)
  {
  }

  /** The default range holds every finite double. */
  lemma DefaultRangeIsAllDoubles(x: real)
    requires -DblMax <= x <= DblMax
    ensures Clamp(x, -DblMax, DblMax, "", "") == DoubleValue(x)
  {
  }

  class DoubleRangeExt {
    var min: real
    var max: real
    var extMin: string
    var extMax: string
    var defaultValue: Value
    var value: Value

    /** The default state: the range of all doubles, value and default
        0.0, no extended strings. */
    constructor ()
      ensures min == -DblMax && max == DblMax && extMin == "" && extMax == ""
      ensures value == DoubleValue(0.0) && defaultValue == DoubleValue(0.0)
    {
      min, max := -DblMax, DblMax;
      extMin, extMax := "", "";
      value, defaultValue := DoubleValue(0.0), DoubleValue(0.0);
    }

    /** init with its list already split into the range and the two
        extended strings. */
    method Init(newMin: real, newMax: real, newExtMin: string, newExtMax: string)
      modifies this
      ensures min == newMin && max == newMax && extMin == newExtMin && extMax == newExtMax
      ensures value == old(value) && defaultValue == old(defaultValue)
    {
      min, max, extMin, extMax := newMin, newMax, newExtMin, newExtMax;
    }

    /** set_value for a number: the value is stored as the range says. */
    method SetValue(x: real)
      modifies this
      ensures value == Clamp(x, min, max, extMin, extMax)
      ensures min == old(min) && max == old(max) && extMin == old(extMin) && extMax == old(extMax)
      ensures defaultValue == old(defaultValue)
    {
      value := Clamp(x, min, max, extMin, extMax);
    }

    /** set_default for a number: the default and the value. */
    method SetDefault(x: real)
      modifies this
      ensures defaultValue == Clamp(x, min, max, extMin, extMax) && value == defaultValue
      ensures min == old(min) && max == old(max) && extMin == old(extMin) && extMax == old(extMax)
    {
      defaultValue := Clamp(x, min, max, extMin, extMax);
      value := defaultValue;
    }

    /** The accessors min(), max(), ext_min() and ext_max(). */
    function Min(): (r: real)
      reads this
      ensures r == min
    {
      min
    }

    function Max(): (r: real)
      reads this
      ensures r == max
    {
      max
    }

    function ExtMin(): (r: string)
      reads this
      ensures r == extMin
    {
      extMin
    }

    function ExtMax(): (r: string)
      reads this
      ensures r == extMax
    {
      extMax
    }
  }
}
