/**
 * Lighthouse: a base station as the rest of the core passes it around — its advertised
 * name, its 64-bit Bluetooth address and, for first-generation stations, an optional id.
 * The generation is not stored; it is read off the name on every access.
 */
module Lighthouses {
  import opened Wrappers
  import opened Framework

  /** The name prefix of a first-generation (V1) base station. */
  const V1Prefix: string := "HTC BS"

  /** The name prefix of a second-generation (V2) base station. */
  const V2Prefix: string := "LHB-"

  datatype LighthouseVersion = V1 | V2 | Unknown

  datatype Lighthouse = Lighthouse(name: string, bluetoothAddress: ulong, id: Option<string>)
  {
    /** The Version property: a V1 prefix wins, then a V2 prefix, and anything else is Unknown. */
    function Version(): (v: LighthouseVersion)
      ensures v == V1 <==> StartsWith(name, V1Prefix)
      ensures v == V2 <==> StartsWith(name, V2Prefix)
      ensures v == Unknown <==> !StartsWith(name, V1Prefix) && !StartsWith(name, V2Prefix)
    {
      PrefixesExclusive(name);
      if StartsWith(name, V1Prefix) then V1
      else if StartsWith(name, V2Prefix) then V2
      else Unknown
    }
  }

  /** A Lighthouse as `new Lighthouse()` leaves it: empty name, address 0, no id. */
  const Default: Lighthouse := Lighthouse("", 0, None)

  /** No name carries both prefixes: they differ in their first character. */
  lemma PrefixesExclusive(name: string)
    ensures !(StartsWith(name, V1Prefix) && StartsWith(name, V2Prefix))
  {
    if StartsWith(name, V1Prefix) {
      assert name[..|V2Prefix|][0] == name[0] == V1Prefix[0] == 'H' != V2Prefix[0];
    }
  }

  /** The freshly constructed Lighthouse is of unknown generation. */
  lemma DefaultIsUnknown()
    ensures Default.name == "" && Default.Version() == Unknown
  {
  }

  /** The version is a function of the name alone: address and id play no part. */
  lemma VersionIgnoresAddressAndId(l: Lighthouse, address: ulong, id: Option<string>)
    ensures l.(bluetoothAddress := address, id := id).Version() == l.Version()
  {
  }

  /** Renaming re-classifies: the version after a rename is the version of the new name. */
  lemma RenameReclassifies(l: Lighthouse, name: string)
    ensures l.(name := name).Version() == Lighthouse(name, 0, None).Version()
    ensures StartsWith(l.name, V1Prefix) && StartsWith(name, V2Prefix) ==>
              l.Version() == V1 && l.(name := name).Version() == V2
  {
  }
}
