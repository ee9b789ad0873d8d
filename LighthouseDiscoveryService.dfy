/**
 * LighthouseDiscoveryService: two device watchers (paired and unpaired devices) feed one
 * handler, which records every base station it sees in a map keyed by the platform's
 * device id and raises Found once for each id it records.
 */
module Discovery {
  import opened Wrappers
  import opened Framework
  import opened Lighthouses
  import opened AddressCodec

  /** What the Added handler did with one watcher notification. */
  datatype AddedOutcome =
    | NotALighthouse              // the advertised name is of neither generation
    | AlreadyFound                // the id is already in the map
    | NoDevice                    // the platform returned no BLE device for the id
    | Faulted(e: ConverterError)  // formatting the device's address threw
    | Recorded(lighthouse: Lighthouse)

  /** Lighthouse { Name = name }.Version != Unknown: the name carries a V1 or a V2 prefix. */
  predicate IsLighthouseName(name: string) {
    Lighthouse(name, 0, None).Version() != Unknown
  }

  /** A name is a base station's exactly when it starts with one of the two prefixes. */
  lemma LighthouseNames(name: string)
    ensures IsLighthouseName(name) <==> StartsWith(name, V1Prefix) || StartsWith(name, V2Prefix)
  {
  }

  /**
   * The map holds exactly the ids of the session, each once, and the last events are
   * the session's entries in recording order.
   */
  ghost predicate SessionRecorded(session: seq<string>, recorded: map<string, Lighthouse>, events: seq<Lighthouse>) {
    && (forall i, j :: 0 <= i < j < |session| ==> session[i] != session[j])
    && (forall id :: id in recorded <==> id in session)
    && |session| <= |events|
    && (forall k :: 0 <= k < |session| ==>
          session[k] in recorded && events[|events| - |session| + k] == recorded[session[k]])
  }

  /** Recording a new id, with its Found event, keeps the session consistent. */
  lemma RecordKeepsSession(session: seq<string>, recorded: map<string, Lighthouse>, events: seq<Lighthouse>,
                           id: string, lighthouse: Lighthouse)
    requires SessionRecorded(session, recorded, events) && id !in recorded
    ensures SessionRecorded(session + [id], recorded[id := lighthouse], events + [lighthouse])
  {
    var s', r', e' := session + [id], recorded[id := lighthouse], events + [lighthouse];
    forall k | 0 <= k < |s'|
      ensures s'[k] in r' && e'[|e'| - |s'| + k] == r'[s'[k]]
    {
      if k < |session| {
        assert s'[k] == session[k] && session[k] != id;
        assert e'[|e'| - |s'| + k] == events[|events| - |session| + k];
      }
    }
  }

  class LighthouseDiscoveryService {
    var isDiscovering: bool
    var foundLighthouses: map<string, Lighthouse>
    /** Every Found event raised so far, oldest first. */
    ghost var found: seq<Lighthouse>
    /** The ids recorded since discovery last started, in the order they were recorded. */
    ghost var session: seq<string>

    /**
     * The map holds exactly the ids recorded in this session, each once, and the latest
     * Found events are those entries in recording order: Found has fired once per id.
     */
    ghost predicate Valid()
      reads this
    {
      SessionRecorded(session, foundLighthouses, found)
    }

    constructor()
      ensures Valid()
      ensures !isDiscovering && foundLighthouses == map[] && found == [] && session == []
    {
      isDiscovering := false;
      foundLighthouses := map[];
      found := [];
      session := [];
    }

    /** Starting while already discovering does nothing; otherwise a new session begins with an empty map. */
    method StartDiscovery()
      requires Valid()
      modifies this
      ensures Valid()
      ensures old(isDiscovering) ==> unchanged(this)
      ensures !old(isDiscovering) ==>
                isDiscovering && foundLighthouses == map[] && session == [] && found == old(found)
    {
      if isDiscovering {
        return;
      }
      isDiscovering := true;
      foundLighthouses := map[];
      session := [];
    }

    /** Stopping always clears the flag and keeps what was found. */
    method StopDiscovery()
      requires Valid()
      modifies this
      ensures Valid()
      ensures !isDiscovering
      ensures foundLighthouses == old(foundLighthouses) && session == old(session) && found == old(found)
    {
      isDiscovering := false;
    }

    /** The unpaired watcher's EnumerationCompleted handler stops discovery. */
    method EnumerationCompleted()
      requires Valid()
      modifies this
      ensures Valid()
      ensures !isDiscovering
      ensures foundLighthouses == old(foundLighthouses) && session == old(session) && found == old(found)
    {
      StopDiscovery();
    }

    /**
     * The Added handler of both watchers. `device` is what BluetoothLEDevice.FromIdAsync
     * returned for the id: None for null, otherwise the device's 64-bit address.
     */
    method DeviceWatcherAdded(name: string, id: string, device: Option<ulong>) returns (outcome: AddedOutcome)
      requires Valid()
      modifies this
      ensures Valid()
      ensures isDiscovering == old(isDiscovering)
      ensures !IsLighthouseName(name) ==> outcome == NotALighthouse
      ensures IsLighthouseName(name) && id in old(foundLighthouses) ==> outcome == AlreadyFound
      ensures IsLighthouseName(name) && id !in old(foundLighthouses) && device.None? ==> outcome == NoDevice
      ensures outcome.Recorded? <==>
                IsLighthouseName(name) && id !in old(foundLighthouses) && device.Some?
                && AddressToStringOk(device.value)
      ensures outcome.Recorded? ==>
                && outcome.lighthouse == Lighthouse(name, device.value, None)
                && foundLighthouses == old(foundLighthouses)[id := outcome.lighthouse]
                && found == old(found) + [outcome.lighthouse]
                && session == old(session) + [id]
      ensures !outcome.Recorded? ==>
                foundLighthouses == old(foundLighthouses) && found == old(found) && session == old(session)
    {
      if !IsLighthouseName(name) {
        return NotALighthouse;
      }
      if id in foundLighthouses {
        return AlreadyFound;
      }
      if device.None? {
        return NoDevice;
      }
      var text := AddressToString(device.value);
      if text.Err? {
        return Faulted(text.error);
      }
      var lighthouse := Lighthouse(name, device.value, None);
      RecordKeepsSession(session, foundLighthouses, found, id, lighthouse);
      foundLighthouses := foundLighthouses[id := lighthouse];
      session := session + [id];
      found := found + [lighthouse];
      outcome := Recorded(lighthouse);
    }
  }

  /** Whether AddressToString succeeds: its hex text has an even number of digits. */
  predicate AddressToStringOk(address: ulong) {
    |HexText(address)| % 2 == 0
  }

  /** Every Bluetooth device address (below 2^48) can be formatted, so such a device is never lost. */
  lemma BluetoothAddressesFormat(address: ulong)
    requires address < AddressLimit
    ensures AddressToStringOk(address)
  {
    AddressTextIsCanonical(address);
  }
}
