/** The settings type for a list of doubles (oskar::DoubleList): the
    string is split at the delimiter as std::getline splits it, each token
    is converted to a double, and the list is written back with the
    delimiter between consecutive values. The two string utilities it
    calls, string-to-double and double-to-string, are supplied with the
    object. */
module DoubleList {
  import opened Common

  // ---------------------------------------------------------------------
  // Splitting and joining

  function IndexOf(s: string, d: char): (i: nat)
    requires d in s
    ensures i < |s| && s[i] == d && d !in s[..i]
  {
    if s[0] == d then 0 else 1 + IndexOf(s[1..], d)
  }

  /** s cut at every delimiter: one more piece than there are delimiters. */
  function Split(s: string, d: char): (r: seq<string>)
    ensures |r| > 0
    ensures forall k :: 0 <= k < |r| ==> d !in r[k]
    decreases |s|
  {
    if d !in s then [s]
    else
      var i := IndexOf(s, d);
      [s[..i]] + Split(s[i + 1..], d)
  }

  /** The tokens std::getline reads from s: the pieces of s between
      delimiters, without a last piece that is empty (a trailing delimiter
      or an empty string ends the stream without a token). */
  function Tokens(s: string, d: char): seq<string>
  {
    var pieces := Split(s, d);
    if pieces[|pieces| - 1] == "" then pieces[..|pieces| - 1] else pieces
  }

  /** xs with d between consecutive elements and nowhere else. */
  function Join(xs: seq<string>, d: char): string
  {
    if |xs| == 0 then ""
    else if |xs| == 1 then xs[0]
    else xs[0] + [d] + Join(xs[1..], d)
  }

  lemma {:induction false} JoinSnoc(xs: seq<string>, x: string, d: char)
    ensures Join(xs + [x], d) == if |xs| == 0 then x else Join(xs, d) + [d] + x
    decreases |xs|
  {
    if |xs| >= 2 {
      assert (xs + [x])[1..] == xs[1..] + [x];
      JoinSnoc(xs[1..], x, d);
    } else if |xs| == 1 {
      assert xs + [x] == [xs[0], x];
    } else {
      assert xs + [x] == [x];
    }
  }

  /** Joining the pieces gives s back. */
  lemma {:induction false} JoinSplit(s: string, d: char)
    ensures Join(Split(s, d), d) == s
    decreases |s|
  {
    if d in s {
      var i := IndexOf(s, d);
      JoinSplit(s[i + 1..], d);
      assert s == s[..i] + [d] + s[i + 1..];
    }
  }

  /** Splitting a join of delimiter-free strings gives them back. */
  lemma {:induction false} SplitJoin(xs: seq<string>, d: char)
    requires |xs| > 0 && forall k :: 0 <= k < |xs| ==> d !in xs[k]
    ensures Split(Join(xs, d), d) == xs
    decreases |xs|
  {
    if |xs| == 1 {
      assert Join(xs, d) == xs[0];
    } else {
      var rest := Join(xs[1..], d);
      assert Join(xs, d) == xs[0] + [d] + rest;
      SplitFirst(xs[0], d, rest);
      SplitJoin(xs[1..], d);
      assert xs == [xs[0]] + xs[1..];
    }
  }

  /** A delimiter-free piece followed by the delimiter splits off first. */
  lemma SplitFirst(a: string, d: char, b: string)
    requires d !in a
    ensures Split(a + [d] + b, d) == [a] + Split(b, d)
  {
    var s := a + [d] + b;
    assert s[|a|] == d;
    assert s[..|a|] == a;
    IndexOfFirst(s, d, |a|);
    assert s[|a| + 1..] == b;
  }

  lemma {:induction false} IndexOfFirst(s: string, d: char, i: nat)
    requires i < |s| && s[i] == d && d !in s[..i]
    ensures d in s && IndexOf(s, d) == i
    decreases i
  {
    if i > 0 {
      assert s[0] == s[..i][0];
      assert s[1..][..i - 1] == s[..i][1..];
      IndexOfFirst(s[1..], d, i - 1);
    }
  }

  /** The getline tokens of a join are the joined strings when none holds
      the delimiter and the last is not empty. */
  lemma TokensJoin(xs: seq<string>, d: char)
    requires forall k :: 0 <= k < |xs| ==> d !in xs[k]
    requires |xs| > 0 ==> xs[|xs| - 1] != ""
    ensures Tokens(Join(xs, d), d) == xs
  {
    if |xs| == 0 {
      assert Split("", d) == [""];
    } else {
      SplitJoin(xs, d);
    }
  }

  /** Every token of s is the text between two delimiters of s: joining
      the tokens gives s back, minus one trailing delimiter. */
  lemma JoinTokens(s: string, d: char)
    ensures Join(Tokens(s, d), d) == s || Join(Tokens(s, d), d) + [d] == s
  {
    var pieces := Split(s, d);
    JoinSplit(s, d);
    if pieces[|pieces| - 1] == "" && |pieces| > 1 {
      var init := pieces[..|pieces| - 1];
      assert pieces == init + [""];
      JoinSnoc(init, "", d);
      assert |init| > 0;
    } else if pieces[|pieces| - 1] == "" {
      assert Tokens(s, d) == [];
    }
  }

  // ---------------------------------------------------------------------
  // Parsing and formatting

  /** All tokens convert. */
  predicate AllValid(tokens: seq<string>, parse: string -> Option<real>)
  {
    forall k :: 0 <= k < |tokens| ==> parse(tokens[k]).Some?
  }

  function Values(tokens: seq<string>, parse: string -> Option<real>): (r: seq<real>)
    requires AllValid(tokens, parse)
    ensures |r| == |tokens| && forall k :: 0 <= k < |r| ==> parse(tokens[k]) == Some(r[k])
  {
    seq(|tokens|, k requires 0 <= k < |tokens| => parse(tokens[k]).value)
  }

  function Formatted(values: seq<real>, format: real -> string): (r: seq<string>)
    ensures |r| == |values| && forall k :: 0 <= k < |r| ==> r[k] == format(values[k])
  {
    seq(|values|, k requires 0 <= k < |values| => format(values[k]))
  }

  class DoubleList {
    /** oskar_settings_utility_string_to_double (None when the token is
        not a number), oskar_settings_utility_double_to_string_2 with
        format 'g', and compare_vectors. */
    const parse: string -> Option<real>
    const format: real -> string
    const equal: (seq<real>, seq<real>) -> bool
    var delimiter: char
    var defaultValue: seq<real>
    var value: seq<real>
    var strDefault: string
    var strValue: string

    constructor (parse: string -> Option<real>, format: real -> string, equal: (seq<real>, seq<real>) -> bool)
      ensures this.parse == parse && this.format == format && this.equal == equal
      ensures delimiter == ',' && defaultValue == [] && value == [] && strDefault == "" && strValue == ""
    {
      this.parse, this.format, this.equal := parse, format, equal;
      delimiter := ',';
      defaultValue, value := [], [];
      strDefault, strValue := "", "";
    }

    /** init: the delimiter is a comma whatever the parameter string. */
    method Init(s: string) returns (ok: bool)
      modifies this
      ensures ok && delimiter == ','
      ensures defaultValue == old(defaultValue) && value == old(value)
      ensures strDefault == old(strDefault) && strValue == old(strValue)
    {
      delimiter := ',';
      return true;
    }

    /** from_string_: converts token after token and gives up at the
        first that does not convert, leaving the list as it was; only a
        complete conversion replaces it. */
    method FromString(current: seq<real>, s: string) returns (ok: bool, values: seq<real>)
      ensures ok <==> AllValid(Tokens(s, delimiter), parse)
      ensures values == if ok then Values(Tokens(s, delimiter), parse) else current
    {
      var tokens := Tokens(s, delimiter);
      var temp: seq<real> := [];
      var i := 0;
      while i < |tokens|
        invariant 0 <= i <= |tokens| && AllValid(tokens[..i], parse)
        invariant |temp| == i && forall k :: 0 <= k < i ==> parse(tokens[k]) == Some(temp[k])
      {
        var v := parse(tokens[i]);
        if v.None? {
          return false, current;
        }
        temp := temp + [v.value];
        i := i + 1;
        assert forall k :: 0 <= k < i ==> tokens[..i][k] == tokens[k];
      }
      assert tokens[..i] == tokens;
      return true, temp;
    }

    /** to_string_: the formatted values with the delimiter after every
        value but the last. */
    method ToString(values: seq<real>) returns (s: string)
      ensures s == Join(Formatted(values, format), delimiter)
    {
      var strs := Formatted(values, format);
      s := "";
      var i := 0;
      while i < |values|
        invariant 0 <= i <= |values|
        invariant s == if i == 0 then "" else Join(strs[..i], delimiter) + (if i < |values| then [delimiter] else [])
      {
        JoinSnoc(strs[..i], strs[i], delimiter);
        assert strs[..i + 1] == strs[..i] + [strs[i]];
        s := s + format(values[i]);
        if i < |values| - 1 {
          s := s + [delimiter];
        }
        i := i + 1;
      }
      assert strs[..|values|] == strs;
    }

    /** set_value: the list is replaced only by a complete conversion; the
        string form is rewritten from the list either way. */
    method SetValue(s: string) returns (ok: bool)
      modifies this
      ensures ok <==> AllValid(Tokens(s, delimiter), parse)
      ensures value == if ok then Values(Tokens(s, delimiter), parse) else old(value)
      ensures strValue == Join(Formatted(value, format), delimiter)
      ensures delimiter == old(delimiter) && defaultValue == old(defaultValue) && strDefault == old(strDefault)
    {
      ok, value := FromString(value, s);
      strValue := ToString(value);
    }

    /** set_default: the same for the default, and a default that
        converts becomes the value too. */
    method SetDefault(s: string) returns (ok: bool)
      modifies this
      ensures ok <==> AllValid(Tokens(s, delimiter), parse)
      ensures defaultValue == if ok then Values(Tokens(s, delimiter), parse) else old(defaultValue)
      ensures strDefault == Join(Formatted(defaultValue, format), delimiter)
      ensures value == if ok then defaultValue else old(value)
      ensures strValue == if ok then Join(Formatted(value, format), delimiter) else old(strValue)
      ensures delimiter == old(delimiter)
    {
      ok, defaultValue := FromString(defaultValue, s);
      strDefault := ToString(defaultValue);
      if ok {
        var _ := SetValue(s);
      }
    }

    /** is_default: compare_vectors of the value and the default. */
    predicate IsDefault()
      reads this
    {
      equal(value, defaultValue)
    }

    /** size. */
    function Size(): (n: nat)
      reads this
      ensures n == |value|
    {
      |value|
    }

    /** values: no array for an empty list. */
    function ValuesPointer(): (r: Option<seq<real>>)
      reads this
      ensures r.None? <==> |value| == 0
      ensures r.Some? ==> r.value == value
    {
      if |value| > 0 then Some(value) else None
    }

    /** operator==: compare_vectors of the two values. */
    predicate Equals(other: DoubleList)
      reads this, other
    {
      equal(value, other.value)
    }
  }

  /** is_default and operator== both go through compare_vectors: is_default
      compares the value with the default, == compares the two values and
      so ignores the defaults and the string forms; under a reflexive
      compare_vectors a list whose value is its default is at its default. */
  lemma ComparisonsUseValues(a: DoubleList, b: DoubleList, c: DoubleList)
    ensures a.IsDefault() <==> a.equal(a.value, a.defaultValue)
    ensures a.Equals(b) <==> a.equal(a.value, b.value)
    ensures c.value == b.value ==> (a.Equals(b) <==> a.Equals(c))
    ensures (forall x :: a.equal(x, x)) && a.value == a.defaultValue ==> a.IsDefault()
    ensures (forall x :: a.equal(x, x)) && a.value == b.value ==> a.Equals(b)
  {
  }

  /** The string form of a list reads back as the same tokens when the
      format writes each double as a non-empty string without the
      delimiter, so a list converts back to itself when parse inverts
      format. */
  lemma {:induction false} FormatRoundTrip(values: seq<real>, format: real -> string, parse: string -> Option<real>, d: char)
    requires forall x: real :: format(x) != ""
    requires forall x: real :: d !in format(x)
    requires forall x: real :: parse(format(x)) == Some(x)
    ensures Tokens(Join(Formatted(values, format), d), d) == Formatted(values, format)
    ensures AllValid(Formatted(values, format), parse)
    ensures Values(Formatted(values, format), parse) == values
  {
    var strs := Formatted(values, format);
    forall k | 0 <= k < |strs| ensures d !in strs[k] && strs[k] != "" && parse(strs[k]) == Some(values[k]) {
      var x := values[k];
      assert strs[k] == format(x);
      assert format(x) != "" && d !in format(x) && parse(format(x)) == Some(x);
    }
    TokensJoin(strs, d);
  }
}
