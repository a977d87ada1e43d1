/** The archive the server builds, as the `hemtt_pbo::WritablePbo` it
    fills: header properties and named files, each in the order they were
    added. The binary PBO layout `write` produces is not modelled; a
    written archive is this value. */
module Pbo {
  import opened Base

  datatype Entry = Entry(name: string, content: seq<byte>)

  datatype Archive = Archive(properties: seq<(string, string)>, entries: seq<Entry>)

  function Names(entries: seq<Entry>): (names: seq<string>)
    ensures |names| == |entries|
    ensures forall i :: 0 <= i < |entries| ==> names[i] == entries[i].name
  {
    seq(|entries|, i requires 0 <= i < |entries| => entries[i].name)
  }

  class WritablePbo {
    var properties: seq<(string, string)>
    var entries: seq<Entry>

    constructor ()
      ensures properties == [] && entries == []
    {
      properties, entries := [], [];
    }

    /** `add_property`: one more header property. */
    method AddProperty(key: string, value: string)
      modifies this`properties
      ensures properties == old(properties) + [(key, value)]
    {
      properties := properties + [(key, value)];
    }

    /** `add_file`: one more file, after those already added. */
    method AddFile(name: string, content: seq<byte>)
      modifies this`entries
      ensures entries == old(entries) + [Entry(name, content)]
    {
      entries := entries + [Entry(name, content)];
    }

    /** The archive `write` would serialise now. */
    function Snapshot(): Archive
      reads this
    {
      Archive(properties, entries)
    }
  }
}
