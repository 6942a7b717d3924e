# DllShimmer decision core, in Dafny

DllShimmer builds a proxy ("shim") for a Windows DLL. It reads the DLL's exports and
writes a module-definition file that re-exports every symbol under its original ordinal.
In dynamic mode each real export is renamed to an internal `NameFwd` alias, and the
generated code resolves that alias at load time. In static mode a second, throwaway
definition file declares the original library. `dlltool` turns it into an import
library, so the shim can call the original directly.

This project models two pieces of decision logic and proves their properties:

- **Command line** (`cli.dfy`, module `Cli`). `IsValidDllName` accepts a bare DLL file
  name. The name must contain none of `< > : " / \ | ? *`, and it must end in `.dll` in
  any letter case. `CheckFlags` is the ladder that ends flag parsing. The version flag wins.
  Next a missing input, output or original gives the usage outcome. The DLL-name check
  applies only when static linking is on. Otherwise the flags are accepted unchanged.
- **Output stage** (`output.dfy`, module `Output`, with `def.dfy`, module `Def`).
  - The file-name getters.
  - The code-template choice.
  - The `dlltool` program and its argument list.
  - The two definition-file builders. `CreateDefFile` builds the shim's file, declaring
    `Dll.Name`. `CreateLibFile` builds the import-library file, declaring `Dll.Original`.
    Both are methods that fill a `DefFile` object in a loop. Their result is tied to the
    specification function `EntriesOf`.
  - The lemmas about `EntriesOf`. There is one entry per export, in order. Ordinals are
    copied verbatim. Forwarders are never renamed. Real exports are renamed to
    `Name + "Fwd"` in the shim's file and exported plainly in the library's file. Both
    files read back to exactly the original export list.
- `strings.dfy` (module `Strings`) holds the three Go `strings` operations the name check
  uses.

The `DefFile` accumulator lives in a package whose source is not part of this model. It
is modelled abstractly, as the declared library name plus the entries in the order they
were added. Each entry is one of three kinds:

- `Renamed(name, alias, ordinal)`
- `Forwarded(name, target, ordinal)`
- `Exported(name, ordinal)`

Notes on the code as written:

- The import-library command always passes `-m i386:x86-64`, also with the 32-bit
  `i686-w64-mingw32-dlltool`. A comment in the source admits that the 32-bit case needs a
  different machine flag. See "## Findings": `CreateLibFile` keeps the command as written,
  because it models the code; `IntendedDlltoolCommand` is the corrected command.
- The output stage checks no symbol names itself. Any such check would sit inside the
  `DefFile` package, which is not part of this model.
- Only two definition files exist: the shim's file and the import-library file. There is
  no third, re-export mode.

## Model

| member | source | states |
|---|---|---|
| `Strings.ToLower` | cli/cli.go:33 | lower-casing keeps the length and lowers each character on its own (ASCII letters only) |
| `Cli.ContainsAnyRune` | cli/cli.go:24-31 | the early-return loop over the forbidden runes reports true exactly when some listed rune occurs in the name |
| `Cli.LowerSuffixIsDll` | cli/cli.go:33 | lower-casing a name and testing for the suffix `.dll` is the same as testing its last four characters for `.`, `d`/`D`, `l`/`L`, `l`/`L` |
| `Cli.IsValidDllName` | cli/cli.go:23-38 | true exactly when no position of the name holds a forbidden character and the name ends in `.`, `d`/`D`, `l`/`L`, `l`/`L` |
| `Cli.ForbiddenCharRejected` | cli/cli.go:24-31 | one forbidden character at any position rejects the name |
| `Cli.MissingDllSuffixRejected` | cli/cli.go:33-35 | a name whose lower-cased form does not end in `.dll` is rejected |
| `Cli.ValidityIgnoresCase` | cli/cli.go:33 | a name and its lower-cased form are accepted or rejected together |
| `Cli.UpperCaseSuffixAccepted` | cli/cli.go:33-37 | `KERNEL32.DLL` and `User32.Dll` are accepted |
| `Cli.RelativePathRejected` | cli/cli.go:24-31 | `..\version.dll` is rejected because of its backslash |
| `Cli.AbsolutePathRejected` | cli/cli.go:24-31 | `C:\Windows\System32\version.dll` is rejected because of its drive colon |
| `Cli.CheckFlags` | cli/cli.go:88-104 | the version flag takes precedence over everything and is the only way to the version outcome; a missing input, output or original gives usage; the name check fails exactly when static linking is on and the original is not a valid DLL name; acceptance holds exactly in the remaining case and returns the flags unchanged |
| `Cli.CliOutcome.ExitCode` | cli/cli.go:88-102 | the version outcome exits with 0, usage and an invalid original exit with 1 |
| `Cli.DynamicAcceptsAnyOriginal` | cli/cli.go:98-104 | without static linking any non-empty original, even a full path, is accepted |
| `Cli.StaticRejectsPathInformation` | cli/cli.go:98-102 | with static linking an original containing `\`, `/` or `:` ends in the invalid-original outcome |
| `Cli.UsageExampleDependsOnMode` | cli/cli.go:80 | the usage text's example invocation, with a full Windows path as original, is accepted exactly when static linking is off |
| `Def.DefFile.constructor` | output/output.go:94 | a new accumulator has an empty library name and no entries |
| `Def.DefFile.AddRenamedFunction` | output/output.go:99 | appends one renamed entry and changes nothing else |
| `Def.DefFile.AddForwardedFunction` | output/output.go:101 | appends one forwarded entry and changes nothing else |
| `Def.DefFile.AddExportedFunction` | output/output.go:124 | appends one plain exported entry and changes nothing else |
| `Output.Output.GetDefFileName` | output/output.go:21-39 | the definition file name ends in `.def`, and stripping that suffix gives the output DLL name, which is the library's own name |
| `Output.Output.GetCppCodeFileName` | output/output.go:25-39 | the code file name ends in `.cpp`, and stripping that suffix gives the output DLL name |
| `Output.FileNamesDistinct` | output/output.go:21-43 | the definition file, code file and output DLL names differ pairwise, the three fixed names (`dllshimmer.h`, `compile.sh`, `original.lib`) differ pairwise, and no fixed name equals the definition or code file name |
| `Output.TemplatesDistinct` | output/output.go:78-90 | static linking selects `static-shim.cpp.template` and dynamic linking `dynamic-shim.cpp.template`; the two never coincide, and neither is the header template |
| `Output.DlltoolTargetsDifferOnlyInProgram` | output/output.go:145-152 | the 32-bit target runs `i686-w64-mingw32-dlltool` and the other `x86_64-w64-mingw32-dlltool`; both get `-d <definition file> -l <library path> -m i386:x86-64`, so only the program differs |
| `Output.AsWrittenMachineFlagWrongFor32Bit` | output/output.go:146-152 | the command as written equals the intended one exactly for the 64-bit target; the i686 tool is given `i386:x86-64` |
| `Output.IntendedMachineMatchesTool` | output/output.go:146-152 | in the intended command the machine flag is the one of the tool's target, and the two targets get different machines |
| `Output.EntryOf` | output/output.go:97-128 | an entry keeps its export's name and ordinal; it is a forward exactly when the forwarder is non-empty, carrying that text; otherwise it is renamed in the shim's file and exported in the library's file |
| `Output.EntriesOf` | output/output.go:97-103 | one entry per export |
| `Output.EntriesOfAt` | output/output.go:97-103 | the i-th entry is the entry of the i-th export, so the order is kept |
| `Output.EntriesOfSnoc` | output/output.go:97-103 | one more export at the end adds exactly its entry at the end |
| `Output.OrdinalsPreserved` | output/output.go:97-128 | in both files the sequence, and so the multiset, of entry ordinals equals that of the exports |
| `Output.EntriesRoundTrip` | output/output.go:97-128 | reading the exports back from either file's entries gives exactly the original export list: nothing lost, duplicated, reordered or altered |
| `Output.ForwardersNeverRenamed` | output/output.go:97-128 | in both files an export with a forwarder becomes `Forwarded(Name, Forwarder, Ordinal)` |
| `Output.ShimRenamesRealExports` | output/output.go:98-99 | in the shim's file an export without a forwarder becomes `Renamed(Name, Name + "Fwd", Ordinal)` |
| `Output.LibExportsRealExports` | output/output.go:123-124 | in the library's file an export without a forwarder becomes `Exported(Name, Ordinal)`, with no alias |
| `Output.ShimAndLibAgree` | output/output.go:97-128 | the two files agree position by position on name, ordinal and forward-ness, and their forward entries are identical |
| `Output.CreateDefFile` | output/output.go:93-103 | returns a new definition file declaring `Dll.Name` whose entries are `EntriesOf(ShimDef, exports)` |
| `Output.CreateLibFile` | output/output.go:116-152 | returns a new definition file declaring `Dll.Original` whose entries are `EntriesOf(LibDef, exports)`, and the `dlltool` command run on the temporary file |

## Findings

| source | as written | input that shows it | evidently intended | confidence | as-written member | corrected member |
|---|---|---|---|---|---|---|
| output/output.go:146-152 | the machine flag is `-m i386:x86-64` for both tools | `is32Bit` true: `i686-w64-mingw32-dlltool ... -m i386:x86-64` | the i686 tool gets `-m i386`, as the comment in the 32-bit branch says it must be adjusted | medium, not executed | `Output.AsWrittenMachineFlagWrongFor32Bit` | `Output.IntendedMachineMatchesTool` |

The corrected command is `Output.IntendedDlltoolCommand`. `Output.CreateLibFile` still
returns the command as written, since it models the code's behaviour.

## Left out

- Flag registration and the long/short flag aliases, the `flag.Usage` help text, printing,
  and `os.Exit` (cli/cli.go:43-86). The exit status is kept as `CliOutcome.ExitCode`.
  These are library calls and console output.
- `PrintBanner` and the version message (cli/cli.go:107-132): console output only.
- Strings.ToLower: lowers ASCII letters only. Go's `strings.ToLower` also lowers other
  Unicode letters. This cannot change whether a name ends in `.dll`, unless some
  non-ASCII letter lowers to one of `.dll`'s letters.
- `GetTemplate`, `createFileFromTemplate`, `CreateCodeFiles` with its parameter record,
  `createHdrCodeFile` and `CreateCompileScript` (output/output.go:45-76, 88-91, 163-195).
  These are templating over an embedded file system. Only the template names are kept.
  `sanitizePathForInjection` is not part of this model.
- Writing files, `os.CreateTemp`, the deferred `os.Remove`, and running `dlltool`
  (output/output.go:105-113, 130-158). These are file-system and process calls.
  `CreateLibFile` takes the temporary file's path and the library's output path as
  parameters and returns the command it would run. The panic on a failed `dlltool` run is
  not modelled.
- `filepath.Join`: the output paths are not built. The builders return the definition
  objects rather than their rendered text.
- `DefFile.GetContent` and the internals of the `Add*` methods: the `def` package is not
  part of this model. The model does not guess its text format or any name checking it
  may do.
- `dll.ParseDll`: the `dll` package is not part of this model. `Dll` holds only the three
  fields the output stage reads. Ordinals are unbounded naturals, because the width of
  the reader's ordinal type is not visible.
- `main.go`: orchestration only. It runs a fixed sequence of calls, and it calls
  `CreateLibFile` only when static linking is on.
