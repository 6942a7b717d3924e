/** The decision logic of the command-line layer: the original-DLL name check and
    the acceptance ladder that ends flag parsing. */
module Cli {
  import opened Strings

  /** The characters a Windows file name may not contain, in the order they are tried. */
  const INVALID_CHARS: seq<char> := ['<', '>', ':', '"', '/', '\\', '|', '?', '*']

  /** A name ends in ".dll", each letter of the extension in either case. Stated
      character by character, independently of `ToLower`. */
  predicate EndsWithDllIgnoringCase(name: string)
  {
    && |name| >= 4
    && name[|name| - 4] == '.'
    && (name[|name| - 3] == 'd' || name[|name| - 3] == 'D')
    && (name[|name| - 2] == 'l' || name[|name| - 2] == 'L')
    && (name[|name| - 1] == 'l' || name[|name| - 1] == 'L')
  }

  /** The first loop of `IsValidDllName`: tries each rune of `chars` in turn and
      stops at the first one that occurs in `filename`. */
  function ContainsAnyRune(filename: string, chars: seq<char>): (r: bool)
    ensures r <==> exists k :: 0 <= k < |chars| && chars[k] in filename
  {
    if chars == [] then false
    else if ContainsRune(filename, chars[0]) then true
    else
      var rest := ContainsAnyRune(filename, chars[1..]);
      assert forall k :: 1 <= k < |chars| ==> chars[k] == chars[1..][k - 1];
      rest
  }

  lemma LowerSuffixIsDll(name: string)
    ensures HasSuffix(ToLower(name), ".dll") <==> EndsWithDllIgnoringCase(name)
  {
    var low := ToLower(name);
    var n := |name|;
    if n >= 4 {
      assert low[n - 4..] == [low[n - 4], low[n - 3], low[n - 2], low[n - 1]];
      assert ".dll" == ['.', 'd', 'l', 'l'];
    }
  }

  /** Accepts a bare Windows DLL file name: none of the nine forbidden characters
      occurs anywhere, and the name ends in ".dll" in any letter case. */
  function IsValidDllName(filename: string): (r: bool)
    ensures r <==> (forall j :: 0 <= j < |filename| ==> filename[j] !in INVALID_CHARS)
                   && EndsWithDllIgnoringCase(filename)
  {
    LowerSuffixIsDll(filename);
    if ContainsAnyRune(filename, INVALID_CHARS) then false
    else if !HasSuffix(ToLower(filename), ".dll") then false
    else true
  }

  /** Any single forbidden character anywhere in the name rejects it. */
  lemma ForbiddenCharRejected(filename: string, j: nat)
    requires j < |filename| && filename[j] in INVALID_CHARS
    ensures !IsValidDllName(filename)
  {
  }

  /** A name whose lower-cased form does not end in ".dll" is rejected. */
  lemma MissingDllSuffixRejected(filename: string)
    requires !HasSuffix(ToLower(filename), ".dll")
    ensures !IsValidDllName(filename)
  {
    LowerSuffixIsDll(filename);
  }

  /** Letter case never decides validity: a name and its lower-cased form are
      accepted or rejected together. */
  lemma ValidityIgnoresCase(filename: string)
    ensures IsValidDllName(ToLower(filename)) == IsValidDllName(filename)
  {
    var low := ToLower(filename);
    forall j | 0 <= j < |filename|
      ensures low[j] in INVALID_CHARS <==> filename[j] in INVALID_CHARS
    {
      assert low[j] == ToLowerAscii(filename[j]);
    }
    assert EndsWithDllIgnoringCase(low) <==> EndsWithDllIgnoringCase(filename);
  }

  /** A name made of letters, digits and dots only holds none of the forbidden characters. */
  lemma PlainNameHasNoInvalidChar(name: string)
    requires forall j :: 0 <= j < |name| ==>
               'a' <= name[j] <= 'z' || 'A' <= name[j] <= 'Z' || '0' <= name[j] <= '9' || name[j] == '.'
    ensures forall j :: 0 <= j < |name| ==> name[j] !in INVALID_CHARS
  {
  }

  /** The suffix test ignores letter case. */
  lemma UpperCaseSuffixAccepted()
    ensures IsValidDllName("KERNEL32.DLL")
    ensures IsValidDllName("User32.Dll")
  {
    var k, u := "KERNEL32.DLL", "User32.Dll";
    forall j | 0 <= j < |k| ensures k[j] in {'K', 'E', 'R', 'N', 'L', '3', '2', '.', 'D'} { }
    PlainNameHasNoInvalidChar(k);
    assert EndsWithDllIgnoringCase(k);
    forall j | 0 <= j < |u| ensures u[j] in {'U', 's', 'e', 'r', '3', '2', '.', 'D', 'l'} { }
    PlainNameHasNoInvalidChar(u);
    assert EndsWithDllIgnoringCase(u);
  }

  /** A relative path is rejected by its backslash. */
  lemma RelativePathRejected()
    ensures !IsValidDllName("..\\version.dll")
  {
    var rel := "..\\version.dll";
    assert rel[2] == INVALID_CHARS[5];
    ForbiddenCharRejected(rel, 2);
  }

  /** An absolute path is rejected by its drive colon. */
  lemma AbsolutePathRejected()
    ensures !IsValidDllName("C:\\Windows\\System32\\version.dll")
  {
    var abs := "C:\\Windows\\System32\\version.dll";
    assert abs[1] == INVALID_CHARS[2];
    ForbiddenCharRejected(abs, 1);
  }

  /** The fields `flag.Parse` fills in. */
  datatype CliFlags = CliFlags(
    Input: string,
    Output: string,
    Original: string,
    Mutex: bool,
    Static: bool,
    DebugFile: string,
    ShowVersion: bool,
    Is32Bit: bool)

  /** How flag parsing ends: print the version and exit 0, print usage and exit 1,
      report a bad original name and exit 1, or hand the flags to the caller. */
  datatype CliOutcome = VersionShown | Usage | InvalidOriginal | Ok(flags: CliFlags)
  {
    /** The process exit status of the outcomes that terminate the program. */
    function ExitCode(): (code: int)
      requires !Ok?
      ensures code == 0 <==> VersionShown?
      ensures code == 0 || code == 1
    {
      if VersionShown? then 0 else 1
    }
  }

  predicate RequiredFlagsPresent(flags: CliFlags)
  {
    flags.Input != "" && flags.Output != "" && flags.Original != ""
  }

  /** The checks after `flag.Parse`, in the order `ParseCli` makes them. */
  function CheckFlags(flags: CliFlags): (r: CliOutcome)
    // the version flag wins over everything else
    ensures flags.ShowVersion ==> r == VersionShown
    ensures r == VersionShown ==> flags.ShowVersion
    // a missing input, output or original yields usage
    ensures !flags.ShowVersion && !RequiredFlagsPresent(flags) ==> r == Usage
    // the DLL-name check applies only with static linking
    ensures r == InvalidOriginal <==>
              !flags.ShowVersion && RequiredFlagsPresent(flags)
              && flags.Static && !IsValidDllName(flags.Original)
    // acceptance, and the flags are handed back unchanged
    ensures r.Ok? <==>
              !flags.ShowVersion && RequiredFlagsPresent(flags)
              && (flags.Static ==> IsValidDllName(flags.Original))
    ensures r.Ok? ==> r.flags == flags
  {
    if flags.ShowVersion then VersionShown
    else if flags.Input == "" || flags.Output == "" || flags.Original == "" then Usage
    else if flags.Static && !IsValidDllName(flags.Original) then InvalidOriginal
    else Ok(flags)
  }

  /** Without static linking, any non-empty original value is accepted, even a full path. */
  lemma DynamicAcceptsAnyOriginal(flags: CliFlags)
    requires !flags.ShowVersion && RequiredFlagsPresent(flags) && !flags.Static
    ensures CheckFlags(flags) == Ok(flags)
  {
  }

  /** With static linking, an original value that contains a path separator or a
      drive colon never gets past flag parsing. */
  lemma StaticRejectsPathInformation(flags: CliFlags, j: nat)
    requires !flags.ShowVersion && RequiredFlagsPresent(flags) && flags.Static
    requires j < |flags.Original|
    requires flags.Original[j] == '\\' || flags.Original[j] == '/' || flags.Original[j] == ':'
    ensures CheckFlags(flags) == InvalidOriginal
  {
    ForbiddenCharRejected(flags.Original, j);
  }

  /** The example of the usage text, a full Windows path, is accepted only in dynamic mode. */
  lemma UsageExampleDependsOnMode(flags: CliFlags)
    requires flags.Input == "version.dll" && flags.Output == "./project"
    requires flags.Original == "C:\\Windows\\System32\\version.dll"
    requires !flags.ShowVersion
    ensures CheckFlags(flags).Ok? <==> !flags.Static
  {
    AbsolutePathRejected();
  }
}
