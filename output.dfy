/** The output stage: names of the generated files, the choice of code template and
    import-library tool, and the two module-definition builders (the shim's own
    definition file and the throwaway one that declares the original library). */
module Output {
  import opened Strings
  import opened Def

  /** One export of the parsed library. An empty `Forwarder` means a real export;
      otherwise it is the forward target text ("Module.Export"). An ordinal-only
      export carries whatever name the reader gave it, and it is passed on as is. */
  datatype ExportedFunction = ExportedFunction(Name: string, Ordinal: nat, Forwarder: string)

  /** The parsed library: its name, the original library the shim stands in for,
      and its exports in table order. */
  datatype Dll = Dll(Name: string, Original: string, ExportedFunctions: seq<ExportedFunction>)

  const HDR_TEMPLATE := "dllshimmer.h.template"
  const DLLTOOL_32 := "i686-w64-mingw32-dlltool"
  const DLLTOOL_64 := "x86_64-w64-mingw32-dlltool"

  /** The output stage for one parsed library and one output directory. */
  datatype Output = Output(Dll: Dll, OutputDir: string)
  {
    /** The shim's definition file is named after the library, with ".def" appended. */
    function GetDefFileName(): (r: string)
      ensures HasSuffix(r, ".def") && r[..|r| - 4] == GetOutputDllName()
    {
      Dll.Name + ".def"
    }

    /** The shim's code file is named after the library, with ".cpp" appended. */
    function GetCppCodeFileName(): (r: string)
      ensures HasSuffix(r, ".cpp") && r[..|r| - 4] == GetOutputDllName()
    {
      Dll.Name + ".cpp"
    }

    function GetHdrCodeFileName(): string
    {
      "dllshimmer.h"
    }

    function GetCompileScriptName(): string
    {
      "compile.sh"
    }

    /** The compiled shim keeps the library's own name. */
    function GetOutputDllName(): string
    {
      Dll.Name
    }

    function GetLibFileName(): string
    {
      "original.lib"
    }
  }

  /** The per-library files never clash with each other, with the output library,
      or with the three fixed files. */
  lemma FileNamesDistinct(o: Output)
    ensures o.GetDefFileName() != o.GetCppCodeFileName()
    ensures o.GetDefFileName() != o.GetOutputDllName()
    ensures o.GetCppCodeFileName() != o.GetOutputDllName()
    ensures o.GetHdrCodeFileName() !in {o.GetDefFileName(), o.GetCppCodeFileName()}
    ensures o.GetCompileScriptName() !in {o.GetDefFileName(), o.GetCppCodeFileName()}
    ensures o.GetLibFileName() !in {o.GetDefFileName(), o.GetCppCodeFileName()}
    ensures |{o.GetHdrCodeFileName(), o.GetCompileScriptName(), o.GetLibFileName()}| == 3
  {
    var def, cpp := o.GetDefFileName(), o.GetCppCodeFileName();
    assert def[|def| - 1] == 'f';
    assert cpp[|cpp| - 1] == 'p';
    var hdr, script, lib := o.GetHdrCodeFileName(), o.GetCompileScriptName(), o.GetLibFileName();
    assert hdr[|hdr| - 1] == 'h' && script[|script| - 1] == 'h' && lib[|lib| - 1] == 'b';
    assert |hdr| != |script| && hdr[0] != lib[0] && script[0] != lib[0];
  }

  /** The code template: the static-linking one when the shim links the original
      library at build time, the dynamic one otherwise. */
  function CppTemplate(isStaticLinked: bool): string
  {
    var templateFile := "dynamic-shim.cpp.template";
    if isStaticLinked then "static-shim.cpp.template" else templateFile
  }

  /** Static linking selects the static template and dynamic linking the dynamic one;
      the two modes never share a code template, and neither is the header's. */
  lemma TemplatesDistinct()
    ensures CppTemplate(true) == "static-shim.cpp.template"
    ensures CppTemplate(false) == "dynamic-shim.cpp.template"
    ensures CppTemplate(true) != CppTemplate(false)
    ensures CppTemplate(true) != HDR_TEMPLATE && CppTemplate(false) != HDR_TEMPLATE
  {
    assert CppTemplate(true)[0] == 's' && CppTemplate(false)[0] == 'd' && HDR_TEMPLATE[1] == 'l';
    assert CppTemplate(false)[1] == 'y';
  }

  /** An external program and its argument list. */
  datatype Command = Command(Program: string, Args: seq<string>)

  /** The import-library tool of the target architecture. */
  function Dlltool(is32Bit: bool): string
  {
    if is32Bit then DLLTOOL_32 else DLLTOOL_64
  }

  /** The import-library invocation: definition file in, library out, and the
      machine flag "i386:x86-64" whatever the target. */
  function DlltoolCommand(is32Bit: bool, defPath: string, libPath: string): Command
  {
    Command(Dlltool(is32Bit), ["-d", defPath, "-l", libPath, "-m", "i386:x86-64"])
  }

  /** The 32-bit target runs the i686 tool and the 64-bit target the x86_64 one; only
      the program differs, and both get the same arguments, machine flag included. */
  lemma DlltoolTargetsDifferOnlyInProgram(defPath: string, libPath: string)
    ensures DlltoolCommand(true, defPath, libPath).Program == "i686-w64-mingw32-dlltool"
    ensures DlltoolCommand(false, defPath, libPath).Program == "x86_64-w64-mingw32-dlltool"
    ensures DlltoolCommand(true, defPath, libPath).Args == DlltoolCommand(false, defPath, libPath).Args
    ensures DlltoolCommand(true, defPath, libPath).Args == ["-d", defPath, "-l", libPath, "-m", "i386:x86-64"]
    ensures DlltoolCommand(true, defPath, libPath).Program != DlltoolCommand(false, defPath, libPath).Program
  {
    assert DLLTOOL_32[0] != DLLTOOL_64[0];
  }

  /** The machine flag that matches the tool of each target: "i386" for the i686
      tool, "i386:x86-64" for the x86_64 one. */
  function MachineFor(is32Bit: bool): string
  {
    if is32Bit then "i386" else "i386:x86-64"
  }

  /** The import-library invocation with the machine flag of the target, which is
      what the 32-bit branch evidently needs. */
  function IntendedDlltoolCommand(is32Bit: bool, defPath: string, libPath: string): Command
  {
    Command(Dlltool(is32Bit), ["-d", defPath, "-l", libPath, "-m", MachineFor(is32Bit)])
  }

  /** With the intended command, the machine flag always matches the tool, and the
      two targets are told different machines. */
  lemma IntendedMachineMatchesTool(is32Bit: bool, defPath: string, libPath: string)
    ensures IntendedDlltoolCommand(is32Bit, defPath, libPath).Program == Dlltool(is32Bit)
    ensures IntendedDlltoolCommand(is32Bit, defPath, libPath).Args[5] == MachineFor(is32Bit)
    ensures IntendedDlltoolCommand(true, defPath, libPath).Args[5] != IntendedDlltoolCommand(false, defPath, libPath).Args[5]
  {
    assert |MachineFor(true)| != |MachineFor(false)|;
  }

  /** The command as written agrees with the intended one exactly for the 64-bit
      target; for the 32-bit target it hands the i686 tool the x86-64 machine. */
  lemma AsWrittenMachineFlagWrongFor32Bit(is32Bit: bool, defPath: string, libPath: string)
    ensures DlltoolCommand(is32Bit, defPath, libPath) == IntendedDlltoolCommand(is32Bit, defPath, libPath)
            <==> !is32Bit
    ensures DlltoolCommand(true, defPath, libPath).Args[5] == "i386:x86-64"
  {
    if is32Bit {
      assert DlltoolCommand(is32Bit, defPath, libPath).Args[5] != IntendedDlltoolCommand(is32Bit, defPath, libPath).Args[5] by {
        assert |MachineFor(true)| != |"i386:x86-64"|;
      }
    }
  }

  // ---------------------------------------------------------------------------
  // Definition entries

  /** Which definition file is being built: the shim's own one, or the one that
      declares the original library for import-library generation. */
  datatype DefKind = ShimDef | LibDef

  /** The entry one export contributes. A forwarder is passed on unchanged in both
      files; a real export is renamed to its "Fwd" alias in the shim's file and
      exported under its own name in the library's. */
  function EntryOf(kind: DefKind, f: ExportedFunction): (e: Entry)
    ensures e.name == f.Name && e.ordinal == f.Ordinal
    ensures e.Forwarded? <==> f.Forwarder != ""
    ensures e.Forwarded? ==> e.target == f.Forwarder
    ensures e.Renamed? <==> kind == ShimDef && f.Forwarder == ""
    ensures e.Exported? <==> kind == LibDef && f.Forwarder == ""
  {
    if f.Forwarder == "" then
      match kind
      case ShimDef => Renamed(f.Name, f.Name + "Fwd", f.Ordinal)
      case LibDef => Exported(f.Name, f.Ordinal)
    else
      Forwarded(f.Name, f.Forwarder, f.Ordinal)
  }

  /** The entries of a whole export list, one per export, in order. */
  function EntriesOf(kind: DefKind, fs: seq<ExportedFunction>): (es: seq<Entry>)
    ensures |es| == |fs|
  {
    if fs == [] then [] else [EntryOf(kind, fs[0])] + EntriesOf(kind, fs[1..])
  }

  function Ordinals(es: seq<Entry>): (os: seq<nat>)
    ensures |os| == |es|
  {
    if es == [] then [] else [es[0].ordinal] + Ordinals(es[1..])
  }

  function ExportOrdinals(fs: seq<ExportedFunction>): (os: seq<nat>)
    ensures |os| == |fs|
  {
    if fs == [] then [] else [fs[0].Ordinal] + ExportOrdinals(fs[1..])
  }

  /** Reads an export back from its entry: the inverse of `EntryOf`. */
  function FunctionOf(e: Entry): ExportedFunction
  {
    match e
    case Renamed(name, _, ordinal) => ExportedFunction(name, ordinal, "")
    case Forwarded(name, target, ordinal) => ExportedFunction(name, ordinal, target)
    case Exported(name, ordinal) => ExportedFunction(name, ordinal, "")
  }

  function FunctionsOf(es: seq<Entry>): (fs: seq<ExportedFunction>)
    ensures |fs| == |es|
  {
    if es == [] then [] else [FunctionOf(es[0])] + FunctionsOf(es[1..])
  }

  /** The i-th entry is the entry of the i-th export. */
  lemma {:induction false} EntriesOfAt(kind: DefKind, fs: seq<ExportedFunction>, i: nat)
    requires i < |fs|
    ensures EntriesOf(kind, fs)[i] == EntryOf(kind, fs[i])
  {
    if i > 0 {
      EntriesOfAt(kind, fs[1..], i - 1);
    }
  }

  /** Adding one export at the end adds its entry at the end. */
  lemma {:induction false} EntriesOfSnoc(kind: DefKind, fs: seq<ExportedFunction>, f: ExportedFunction)
    ensures EntriesOf(kind, fs + [f]) == EntriesOf(kind, fs) + [EntryOf(kind, f)]
  {
    if fs == [] {
      assert [f][1..] == [];
    } else {
      assert (fs + [f])[1..] == fs[1..] + [f];
      EntriesOfSnoc(kind, fs[1..], f);
    }
  }

  /** Ordinals are copied verbatim: the ordinal sequence of the entries is that of
      the exports, so also the multiset of ordinals is the same. */
  lemma {:induction false} OrdinalsPreserved(kind: DefKind, fs: seq<ExportedFunction>)
    ensures Ordinals(EntriesOf(kind, fs)) == ExportOrdinals(fs)
    ensures multiset(Ordinals(EntriesOf(kind, fs))) == multiset(ExportOrdinals(fs))
  {
    if fs != [] {
      OrdinalsPreserved(kind, fs[1..]);
    }
  }

  /** No export is lost, duplicated, reordered or altered: the exports can be read
      back from either definition file exactly. */
  lemma {:induction false} EntriesRoundTrip(kind: DefKind, fs: seq<ExportedFunction>)
    ensures FunctionsOf(EntriesOf(kind, fs)) == fs
  {
    if fs != [] {
      EntriesRoundTrip(kind, fs[1..]);
      var f := fs[0];
      assert FunctionOf(EntryOf(kind, f)) == f;
    }
  }

  /** A forwarded export is never renamed: in both files it becomes a forward entry
      carrying its forwarder text unchanged. */
  lemma ForwardersNeverRenamed(kind: DefKind, fs: seq<ExportedFunction>, i: nat)
    requires i < |fs| && fs[i].Forwarder != ""
    ensures EntriesOf(kind, fs)[i] == Forwarded(fs[i].Name, fs[i].Forwarder, fs[i].Ordinal)
  {
    EntriesOfAt(kind, fs, i);
  }

  /** In the shim's file a real export is renamed to the alias Name + "Fwd". */
  lemma ShimRenamesRealExports(fs: seq<ExportedFunction>, i: nat)
    requires i < |fs| && fs[i].Forwarder == ""
    ensures EntriesOf(ShimDef, fs)[i] == Renamed(fs[i].Name, fs[i].Name + "Fwd", fs[i].Ordinal)
  {
    EntriesOfAt(ShimDef, fs, i);
  }

  /** In the library's file a real export is exported under its own name, with no alias. */
  lemma LibExportsRealExports(fs: seq<ExportedFunction>, i: nat)
    requires i < |fs| && fs[i].Forwarder == ""
    ensures EntriesOf(LibDef, fs)[i] == Exported(fs[i].Name, fs[i].Ordinal)
  {
    EntriesOfAt(LibDef, fs, i);
  }

  /** The two files describe the same export surface: position by position the same
      name and ordinal, and identical forward entries. */
  lemma ShimAndLibAgree(fs: seq<ExportedFunction>)
    ensures Ordinals(EntriesOf(ShimDef, fs)) == Ordinals(EntriesOf(LibDef, fs))
    ensures forall i :: 0 <= i < |fs| ==>
              && EntriesOf(ShimDef, fs)[i].name == EntriesOf(LibDef, fs)[i].name
              && (EntriesOf(ShimDef, fs)[i].Forwarded? <==> EntriesOf(LibDef, fs)[i].Forwarded?)
              && (EntriesOf(ShimDef, fs)[i].Forwarded? ==> EntriesOf(ShimDef, fs)[i] == EntriesOf(LibDef, fs)[i])
  {
    OrdinalsPreserved(ShimDef, fs);
    OrdinalsPreserved(LibDef, fs);
    forall i | 0 <= i < |fs|
      ensures EntriesOf(ShimDef, fs)[i].name == EntriesOf(LibDef, fs)[i].name
      ensures EntriesOf(ShimDef, fs)[i].Forwarded? <==> EntriesOf(LibDef, fs)[i].Forwarded?
      ensures EntriesOf(ShimDef, fs)[i].Forwarded? ==> EntriesOf(ShimDef, fs)[i] == EntriesOf(LibDef, fs)[i]
    {
      EntriesOfAt(ShimDef, fs, i);
      EntriesOfAt(LibDef, fs, i);
    }
  }

  // ---------------------------------------------------------------------------
  // The builders

  /** Builds the shim's own definition file: it declares the shim's name and has one
      entry per export. Writing its text to disk is not modelled. */
  method CreateDefFile(o: Output) returns (def: DefFile)
    ensures fresh(def)
    ensures def.DllName == o.Dll.Name
    ensures def.Entries == EntriesOf(ShimDef, o.Dll.ExportedFunctions)
  {
    def := new DefFile();
    def.DllName := o.Dll.Name;

    var fs := o.Dll.ExportedFunctions;
    for i := 0 to |fs|
      invariant def.DllName == o.Dll.Name
      invariant def.Entries == EntriesOf(ShimDef, fs[..i])
    {
      var fn := fs[i];
      if fn.Forwarder == "" {
        def.AddRenamedFunction(fn.Name, fn.Name + "Fwd", fn.Ordinal);
      } else {
        def.AddForwardedFunction(fn.Name, fn.Forwarder, fn.Ordinal);
      }
      assert fs[..i + 1] == fs[..i] + [fn];
      EntriesOfSnoc(ShimDef, fs[..i], fn);
    }
    assert fs[..|fs|] == fs;
  }

  /** Builds the throwaway definition file that declares the original library, and
      the import-library command run on it. `tempPath` is the temporary file the
      definition text is written to, `libPath` the output directory joined with
      `GetLibFileName()`. */
  method CreateLibFile(o: Output, is32Bit: bool, tempPath: string, libPath: string)
    returns (def: DefFile, cmd: Command)
    ensures fresh(def)
    ensures def.DllName == o.Dll.Original
    ensures def.Entries == EntriesOf(LibDef, o.Dll.ExportedFunctions)
    ensures cmd == DlltoolCommand(is32Bit, tempPath, libPath)
  {
    def := new DefFile();
    // with static linking the original value is a bare DLL name, checked by the command line
    def.DllName := o.Dll.Original;

    var fs := o.Dll.ExportedFunctions;
    for i := 0 to |fs|
      invariant def.DllName == o.Dll.Original
      invariant def.Entries == EntriesOf(LibDef, fs[..i])
    {
      var fn := fs[i];
      if fn.Forwarder == "" {
        def.AddExportedFunction(fn.Name, fn.Ordinal);
      } else {
        def.AddForwardedFunction(fn.Name, fn.Forwarder, fn.Ordinal);
      }
      assert fs[..i + 1] == fs[..i] + [fn];
      EntriesOfSnoc(LibDef, fs[..i], fn);
    }
    assert fs[..|fs|] == fs;

    var dlltool: string;
    if is32Bit {
      dlltool := DLLTOOL_32;
    } else {
      dlltool := DLLTOOL_64;
    }
    cmd := Command(dlltool, ["-d", tempPath, "-l", libPath, "-m", "i386:x86-64"]);
  }
}
