/** The command-line front end of the OSKAR applications
    (oskar::OptionParser): it registers flags, required and optional
    positional arguments, checks a parsed command line, indexes the
    positional arguments and builds the usage line. The generic parser it
    wraps splits the command line into the arguments before the first flag
    (firstArgs, the program name first) and those after the last flag
    (lastArgs); what that parser finds is given to the model as values. */
module OptionParser {
  import opened Common

  /** A registered flag: its default string, whether it must be given, the
      number of arguments it takes, the argument delimiter, its help text
      and its names. */
  datatype Flag = Flag(defaults: string, required: bool, expectedArgs: int, delimiter: char,
                       help: string, names: seq<string>)

  /** What the generic parser reports for a command line: the two argument
      lists, which flags are set, and the outcome and names of its checks
      for required flags and for flag argument counts. */
  datatype Parse = Parse(firstArgs: seq<string>, lastArgs: seq<string>, isSet: string -> bool,
                         gotRequired: bool, missing: seq<string>,
                         gotExpected: bool, unexpected: seq<string>)

  /** What check_options does with a command line: the information it
      prints before stopping, the error it reports, or go ahead. */
  datatype Outcome =
    | ShowHelp
    | ShowVersion(version: string)
    | ShowSettings(settings: string)
    | MissingRequired(name: string)
    | UnexpectedArgs(name: string)
    | TooFewArgs(expected: int, given: int)
    | Ready
  {
    /** The help flag and every error print the usage. */
    predicate PrintsUsage()
    {
      ShowHelp? || MissingRequired? || UnexpectedArgs? || TooFewArgs?
    }
  }

  // ---------------------------------------------------------------------
  // Positional arguments

  /** num_args: the arguments before the first flag without the program
      name, and those after the last flag. */
  function NumArgs(first: seq<string>, last: seq<string>): int
  {
    |first| - 1 + |last|
  }

  /** get_arg: argument i of the command line, counting from 0 after the
      program name (-1 is the program name), first those before the first
      flag and then those after the last flag; none past the end. */
  function Arg(first: seq<string>, last: seq<string>, i: int): (r: Option<string>)
    requires i >= -1
    ensures r.Some? <==> i < NumArgs(first, last)
    ensures r.Some? ==> r.value == (first + last)[i + 1]
  {
    if |first| - 1 > i then Some(first[i + 1])
    else if |first| - 1 + |last| > i then Some(last[i - (|first| - 1)])
    else None
  }

  /** The input files get_input_files lists: the arguments before the
      first flag when there are enough of them and none follows the last
      flag, and otherwise those after the last flag only. */
  function InputFileList(first: seq<string>, last: seq<string>, minRequired: int): seq<string>
  {
    if |first| >= minRequired + 1 && |last| == 0 then (if |first| == 0 then [] else first[1..])
    else last
  }

  /** When the program name is all that precedes the first flag, or no
      argument follows the last flag and enough precede the first, the
      input files are the positional arguments 0, 1, ... in order. */
  lemma InputFilesAreArgs(first: seq<string>, last: seq<string>, minRequired: int)
    requires |first| >= 1
    requires |first| == 1 || (|first| >= minRequired + 1 && |last| == 0)
    ensures var files := InputFileList(first, last, minRequired);
      |files| == NumArgs(first, last) &&
      forall k :: 0 <= k < |files| ==> Arg(first, last, k) == Some(files[k])
  {
    var files := InputFileList(first, last, minRequired);
    forall k | 0 <= k < |files|
      ensures Arg(first, last, k) == Some(files[k])
    {
      var all := first + last;
      assert all[k + 1] == files[k];
    }
  }

  // ---------------------------------------------------------------------
  // Help and usage text

  /** The help text add_flag registers: the help, and the default after it
      for a flag with one argument that has a default and is optional. */
  function HelpText(help: string, expectedArgs: int, defaults: string, required: bool): (r: string)
    ensures |help| <= |r| && r[..|help|] == help
    ensures r != help <==> |defaults| > 0 && expectedArgs == 1 && !required
    ensures r != help ==> r[|help|..] == " (default = " + defaults + ")"
  {
    if |defaults| > 0 && expectedArgs == 1 && !required then help + " (default = " + defaults + ")"
    else help
  }

  /** A name between open and close. */
  function Item(name: string, open: string, close: string): string
  {
    open + name + close
  }

  /** Each name between open and close, after one another. */
  function Wrapped(names: seq<string>, open: string, close: string): string
    decreases |names|
  {
    if |names| == 0 then ""
    else Wrapped(names[..|names| - 1], open, close) + Item(names[|names| - 1], open, close)
  }

  lemma WrappedSnoc(names: seq<string>, i: nat, open: string, close: string)
    requires i < |names|
    ensures Wrapped(names[..i + 1], open, close) == Wrapped(names[..i], open, close) + Item(names[i], open, close)
  {
    assert names[..i + 1][..i] == names[..i];
  }

  /** The syntax line print_usage builds: the title, the options, then each
      required argument in angle brackets and each optional one in square
      brackets, in the order they were added. */
  function UsageSyntax(title: string, required: seq<string>, optional: seq<string>): string
  {
    title + " [OPTIONS]" + Wrapped(required, " <", ">") + Wrapped(optional, " [", "]")
  }

  /** Wrapping distributes over concatenation. */
  lemma {:induction false} WrappedAppend(a: seq<string>, b: seq<string>, open: string, close: string)
    ensures Wrapped(a + b, open, close) == Wrapped(a, open, close) + Wrapped(b, open, close)
    decreases |b|
  {
    if |b| == 0 {
      assert a + b == a;
    } else {
      var b' := b[..|b| - 1];
      var last := b[|b| - 1];
      assert (a + b)[..|a + b| - 1] == a + b';
      assert (a + b)[|a + b| - 1] == last;
      var front, middle, back := Wrapped(a, open, close), Wrapped(b', open, close), Item(last, open, close);
      calc {
        Wrapped(a + b, open, close);
        Wrapped(a + b', open, close) + back;
        { WrappedAppend(a, b', open, close); }
        front + middle + back;
        { assert front + middle + back == front + (middle + back); }
        front + (middle + back);
        front + Wrapped(b, open, close);
      }
    }
  }

  /** Adding a required argument adds its name in angle brackets after
      the earlier required ones and before the optional ones; adding an
      optional one adds its name in square brackets at the end. */
  lemma UsageGrows(title: string, required: seq<string>, optional: seq<string>, name: string)
    ensures UsageSyntax(title, required + [name], optional) ==
      title + " [OPTIONS]" + Wrapped(required, " <", ">") + " <" + name + ">" + Wrapped(optional, " [", "]")
    ensures UsageSyntax(title, required, optional + [name]) == UsageSyntax(title, required, optional) + " [" + name + "]"
  {
    WrappedAppend(required, [name], " <", ">");
    assert Wrapped([name], " <", ">") == Item(name, " <", ">") by {
      assert [name][..0] == [];
    }
    assert (optional + [name])[..|optional + [name]| - 1] == optional;
  }

  function Dashes(n: nat): (r: string)
    ensures |r| == n && forall i :: 0 <= i < n ==> r[i] == '-'
  {
    seq(n, _ => '-')
  }

  /** The footer of the usage text, with the version the parser was made
      with. */
  function Footer(ver: string): string
  {
    "\n" + Dashes(79) + "\n" + "OSKAR (version " + ver + ")\n"
    + "Copyright (c) 2020, The University of Oxford.\n"
    + "This program is free and without warranty.\n"
    + Dashes(79) + "\n"
  }

  /** The names of a flag: the first, and the second when there is one. */
  function FlagNames(flag1: string, flag2: Option<string>): (r: seq<string>)
    ensures |r| == if flag2.Some? then 2 else 1
    ensures r[0] == flag1 && (flag2.Some? ==> r[1] == flag2.value)
  {
    if flag2.Some? then [flag1, flag2.value] else [flag1]
  }

  /** The help texts of the three flags check_options adds. */
  const HelpFlagText := "Display usage instructions and exit."
  const VersionFlagText := "Display the program name/version banner and exit."
  const SettingsFlagText := "Display settings and exit."

  /** The three flags check_options adds before it parses. */
  function InfoFlags(): seq<Flag>
  {
    [ Flag("", false, 0, 0 as char, HelpFlagText, ["--help"]),
      Flag("", false, 0, 0 as char, VersionFlagText, ["--version"]),
      Flag("", false, 0, 0 as char, SettingsFlagText, ["--settings"]) ]
  }

  /** None of the three information flags is set. */
  predicate NoInfoFlag(parse: Parse)
  {
    !parse.isSet("--help") && !parse.isSet("--version") && !parse.isSet("--settings")
  }

  /** The required-flag check lets the command line through: either it
      passes, or it fails without naming a flag. */
  predicate RequiredPass(parse: Parse)
  {
    parse.gotRequired || |parse.missing| == 0
  }

  predicate ExpectedPass(parse: Parse)
  {
    parse.gotExpected || |parse.unexpected| == 0
  }

  /** What check_options decides for a parsed command line, given the
      number of required arguments and the version and settings texts it
      prints. */
  function Verdict(parse: Parse, numRequired: int, versionValue: string, settings: string): Outcome
  {
    if parse.isSet("--help") then ShowHelp
    else if parse.isSet("--version") then ShowVersion(versionValue)
    else if parse.isSet("--settings") then ShowSettings(settings)
    else if !parse.gotRequired && |parse.missing| > 0 then MissingRequired(parse.missing[0])
    else if !parse.gotExpected && |parse.unexpected| > 0 then UnexpectedArgs(parse.unexpected[0])
    else if NumArgs(parse.firstArgs, parse.lastArgs) < numRequired then
      TooFewArgs(numRequired, NumArgs(parse.firstArgs, parse.lastArgs))
    else Ready
  }

  /** The checks come in a fixed order: help, then version, then settings,
      then the first missing required flag, then the first flag with the
      wrong number of arguments, then the count of positional arguments. A
      command line is accepted exactly when it gets through all of them,
      and an accepted one holds an argument for every required name. */
  lemma VerdictOrder(parse: Parse, numRequired: int, versionValue: string, settings: string)
    ensures var v := Verdict(parse, numRequired, versionValue, settings);
      && (parse.isSet("--help") ==> v == ShowHelp)
      && (!parse.isSet("--help") && parse.isSet("--version") ==> v == ShowVersion(versionValue))
      && (!parse.isSet("--help") && !parse.isSet("--version") && parse.isSet("--settings") ==>
            v == ShowSettings(settings))
      && (NoInfoFlag(parse) && !RequiredPass(parse) ==> v == MissingRequired(parse.missing[0]))
      && (NoInfoFlag(parse) && RequiredPass(parse) && !ExpectedPass(parse) ==>
            v == UnexpectedArgs(parse.unexpected[0]))
      && (NoInfoFlag(parse) && RequiredPass(parse) && ExpectedPass(parse)
          && NumArgs(parse.firstArgs, parse.lastArgs) < numRequired ==>
            v == TooFewArgs(numRequired, NumArgs(parse.firstArgs, parse.lastArgs)))
      && (v == Ready <==>
            NoInfoFlag(parse) && RequiredPass(parse) && ExpectedPass(parse)
            && NumArgs(parse.firstArgs, parse.lastArgs) >= numRequired)
      && (v == Ready ==> forall i :: 0 <= i < numRequired ==> Arg(parse.firstArgs, parse.lastArgs, i).Some?)
  {
  }

  class OptionParser {
    var title: string
    /** The version shown in the usage text, and the one printed by
        --version. */
    var version: string
    var versionValue: string
    var settings: string
    var description: string
    var footer: string
    var example: string
    var optional: seq<string>
    var optionalHelp: seq<string>
    var required: seq<string>
    var requiredHelp: seq<string>
    var flags: seq<Flag>
    var firstArgs: seq<string>
    var lastArgs: seq<string>
    var isSet: string -> bool
    var inputFiles: seq<string>
    var syntax: string

    /** A parser with its title, the version it prints (not shown in the
        usage text) and the settings text it prints. */
    constructor (title: string, ver: string, settings: string)
      ensures this.title == title && versionValue == ver && version == "" && this.settings == settings
      ensures footer == Footer(ver)
      ensures description == "" && example == "" && syntax == ""
      ensures optional == [] && optionalHelp == [] && required == [] && requiredHelp == []
      ensures flags == [] && firstArgs == [] && lastArgs == [] && inputFiles == []
    {
      this.title := title;
      version := "";
      versionValue := ver;
      this.settings := settings;
      footer := Footer(ver);
      description, example, syntax := "", "", "";
      optional, optionalHelp, required, requiredHelp := [], [], [], [];
      flags, firstArgs, lastArgs, inputFiles := [], [], [], [];
      isSet := _ => false;
    }

    /** add_example: the text indented on a line of its own. */
    method AddExample(text: string)
      modifies this`example
      ensures example == old(example) + "  " + text + "\n"
    {
      example := example + "  " + text + "\n";
    }

    /** add_flag for a flag without arguments. */
    method AddFlag(flag1: string, help: string, isRequired: bool, flag2: Option<string>)
      modifies this`flags
      ensures flags == old(flags) + [Flag("", isRequired, 0, 0 as char, help,
                                          FlagNames(flag1, flag2))]
    {
      var names := if flag2.Some? then [flag1, flag2.value] else [flag1];
      flags := flags + [Flag("", isRequired, 0, 0 as char, help, names)];
    }

    /** add_flag for a flag with arguments: the help text states the
        default of an optional one-argument flag. */
    method AddFlagWithArgs(flag1: string, help: string, expectedArgs: int, defaults: string,
                           isRequired: bool, flag2: Option<string>)
      modifies this`flags
      ensures flags == old(flags) + [Flag(defaults, isRequired, expectedArgs, 0 as char,
                                          HelpText(help, expectedArgs, defaults, isRequired),
                                          FlagNames(flag1, flag2))]
    {
      var strHelp := help;
      if |defaults| > 0 && expectedArgs == 1 && !isRequired {
        strHelp := strHelp + " (default = " + defaults + ")";
      }
      var names := if flag2.Some? then [flag1, flag2.value] else [flag1];
      flags := flags + [Flag(defaults, isRequired, expectedArgs, 0 as char, strHelp, names)];
    }

    /** add_optional: the name and help go at the end of their lists. */
    method AddOptional(name: string, help: string)
      modifies this`optional, this`optionalHelp
      ensures optional == old(optional) + [name] && optionalHelp == old(optionalHelp) + [help]
    {
      optional := optional + [name];
      optionalHelp := optionalHelp + [help];
    }

    /** add_required: likewise for a required argument. */
    method AddRequired(name: string, help: string)
      modifies this`required, this`requiredHelp
      ensures required == old(required) + [name] && requiredHelp == old(requiredHelp) + [help]
    {
      required := required + [name];
      requiredHelp := requiredHelp + [help];
    }

    /** print_usage: builds the syntax line (the usage text around it is
        the generic parser's). */
    method PrintUsage()
      modifies this`syntax
      ensures syntax == UsageSyntax(title, required, optional)
    {
      syntax := title + " [OPTIONS]";
      ghost var head := syntax;
      var i := 0;
      while i < |required|
        invariant 0 <= i <= |required|
        invariant syntax == head + Wrapped(required[..i], " <", ">")
      {
        WrappedSnoc(required, i, " <", ">");
        ghost var item := Item(required[i], " <", ">");
        assert head + Wrapped(required[..i], " <", ">") + item == head + (Wrapped(required[..i], " <", ">") + item);
        syntax := syntax + (" <" + required[i] + ">");
        i := i + 1;
      }
      assert required[..i] == required;
      head := syntax;
      var j := 0;
      while j < |optional|
        invariant 0 <= j <= |optional|
        invariant syntax == head + Wrapped(optional[..j], " [", "]")
      {
        WrappedSnoc(optional, j, " [", "]");
        ghost var item := Item(optional[j], " [", "]");
        assert head + Wrapped(optional[..j], " [", "]") + item == head + (Wrapped(optional[..j], " [", "]") + item);
        syntax := syntax + (" [" + optional[j] + "]");
        j := j + 1;
      }
      assert optional[..j] == optional;
    }

    /** check_options: adds the three information flags, takes in the
        parsed command line and answers as Verdict says; the help flag and
        each error print the usage, which rebuilds the syntax line. */
    method CheckOptions(parse: Parse) returns (ok: bool, outcome: Outcome)
      modifies this`flags, this`firstArgs, this`lastArgs, this`isSet, this`syntax
      ensures flags == old(flags) + InfoFlags()
      ensures firstArgs == parse.firstArgs && lastArgs == parse.lastArgs && isSet == parse.isSet
      ensures outcome == Verdict(parse, |required|, versionValue, settings)
      ensures ok <==> outcome == Ready
      ensures outcome.PrintsUsage() ==> syntax == UsageSyntax(title, required, optional)
      ensures !outcome.PrintsUsage() ==> syntax == old(syntax)
    {
      AddFlag("--help", HelpFlagText, false, None);
      AddFlag("--version", VersionFlagText, false, None);
      AddFlag("--settings", SettingsFlagText, false, None);
      assert flags == old(flags) + InfoFlags();
      firstArgs, lastArgs, isSet := parse.firstArgs, parse.lastArgs, parse.isSet;
      ok, outcome := false, Verdict(parse, |required|, versionValue, settings);
      if isSet("--help") {
        PrintUsage();
        return;
      }
      if isSet("--version") {
        return;
      }
      if isSet("--settings") {
        return;
      }
      // The loops over the reported names stop at the first one.
      if !parse.gotRequired && |parse.missing| > 0 {
        PrintUsage();
        return;
      }
      if !parse.gotExpected && |parse.unexpected| > 0 {
        PrintUsage();
        return;
      }
      var minReqArgs := |required|;
      if NumArgs(firstArgs, lastArgs) < minReqArgs {
        PrintUsage();
        return;
      }
      ok := true;
    }

    /** get_input_files: the input file list is rebuilt from the
        arguments, and its length and contents returned (no list when it
        is empty). */
    method GetInputFiles(minRequired: int) returns (numFiles: int, files: Option<seq<string>>)
      modifies this`inputFiles
      ensures inputFiles == InputFileList(firstArgs, lastArgs, minRequired)
      ensures numFiles == |inputFiles|
      ensures files.None? <==> numFiles == 0
      ensures files.Some? ==> files.value == inputFiles
    {
      inputFiles := [];
      if |firstArgs| >= minRequired + 1 && |lastArgs| == 0 {
        var i := 1;
        while i < |firstArgs|
          invariant 1 <= i
          invariant |firstArgs| == 0 ==> i == 1 && inputFiles == []
          invariant |firstArgs| > 0 ==> i <= |firstArgs| && inputFiles == firstArgs[1..i]
        {
          assert firstArgs[1..i + 1] == firstArgs[1..i] + [firstArgs[i]];
          inputFiles := inputFiles + [firstArgs[i]];
          i := i + 1;
        }
      } else {
        var i := 0;
        while i < |lastArgs|
          invariant 0 <= i <= |lastArgs|
          invariant inputFiles == lastArgs[..i]
        {
          assert lastArgs[..i + 1] == lastArgs[..i] + [lastArgs[i]];
          inputFiles := inputFiles + [lastArgs[i]];
          i := i + 1;
        }
        assert lastArgs[..i] == lastArgs;
      }
      numFiles := |inputFiles|;
      files := if |inputFiles| > 0 then Some(inputFiles) else None;
    }

    /** set_description. */
    method SetDescription(text: string)
      modifies this`description
      ensures description == text
    {
      description := text;
    }

    /** set_settings. */
    method SetSettings(text: string)
      modifies this`settings
      ensures settings == text
    {
      settings := text;
    }

    /** set_title. */
    method SetTitle(text: string)
      modifies this`title
      ensures title == text
    {
      title := text;
    }

    /** set_version: the printed version is always replaced, the shown one
        only when asked. */
    method SetVersion(ver: string, show: bool)
      modifies this`version, this`versionValue
      ensures versionValue == ver
      ensures version == if show then ver else old(version)
    {
      if show {
        version := ver;
      }
      versionValue := ver;
    }
  }
}
