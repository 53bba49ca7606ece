/** SRT socket options (srt/options.go): a string-to-string map with
    reference semantics, so a copy must be a new map. */
module Srt {

  /** A Go `Options` map; `null` stands for a nil map. */
  class Options {
    var entries: map<string, string>

    constructor (entries: map<string, string>)
      ensures this.entries == entries
    {
      this.entries := entries;
    }
  }

  /** `Options.Clone`: a nil map clones to nil; any other map clones to a
      new map holding exactly the same entries, filled one entry at a time
      in the map's (unspecified) iteration order. */
  method Clone(o: Options?) returns (cp: Options?)
    ensures o == null ==> cp == null
    ensures o != null ==> cp != null && fresh(cp) && cp.entries == o.entries
  {
    if o == null {
      return null;
    }
    cp := new Options(map[]);
    var pending := o.entries.Keys;
    while pending != {}
      invariant pending <= o.entries.Keys
      invariant cp.entries.Keys == o.entries.Keys - pending
      invariant forall k :: k in cp.entries ==> cp.entries[k] == o.entries[k]
      decreases pending
    {
      var k :| k in pending;
      cp.entries := cp.entries[k := o.entries[k]];
      pending := pending - {k};
    }
  }

  /** Writing to a clone leaves the original as it was. */
  method CloneIsIndependent(o: Options, key: string, value: string) returns (cp: Options?)
    ensures cp != null && cp.entries == o.entries[key := value]
    ensures o.entries == old(o.entries)
  {
    cp := Clone(o);
    cp.entries := cp.entries[key := value];
  }
}
