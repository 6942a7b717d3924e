/** The module-definition accumulator the output stage fills in. Only what the
    output stage relies on is modelled: the declared library name and the list of
    entries in the order they were added. How entries are rendered as text is not. */
module Def {

  /** One entry of a module-definition file. Every kind carries the exported name
      and the ordinal it is exported under. They correspond to the conventional
      module-definition forms `name = alias @ordinal`, `name = Module.Target @ordinal`
      and `name @ordinal`; the text actually produced is not modelled. */
  datatype Entry =
    | Renamed(name: string, alias: string, ordinal: nat)
    | Forwarded(name: string, target: string, ordinal: nat)
    | Exported(name: string, ordinal: nat)

  class DefFile {
    var DllName: string
    var Entries: seq<Entry>

    /** The zero value of the accumulator: no library name, no entries. */
    constructor ()
      ensures DllName == "" && Entries == []
    {
      DllName := "";
      Entries := [];
    }

    method AddRenamedFunction(name: string, alias: string, ordinal: nat)
      modifies this
      ensures DllName == old(DllName)
      ensures Entries == old(Entries) + [Renamed(name, alias, ordinal)]
    {
      Entries := Entries + [Renamed(name, alias, ordinal)];
    }

    method AddForwardedFunction(name: string, target: string, ordinal: nat)
      modifies this
      ensures DllName == old(DllName)
      ensures Entries == old(Entries) + [Forwarded(name, target, ordinal)]
    {
      Entries := Entries + [Forwarded(name, target, ordinal)];
    }

    method AddExportedFunction(name: string, ordinal: nat)
      modifies this
      ensures DllName == old(DllName)
      ensures Entries == old(Entries) + [Exported(name, ordinal)]
    {
      Entries := Entries + [Exported(name, ordinal)];
    }
  }
}
