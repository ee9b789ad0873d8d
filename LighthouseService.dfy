/**
 * LighthouseService: the scanner behind the device list. A device watcher reports BLE
 * devices; every "LHB-" device it has not settled yet is identified over GATT, and the
 * ones that turn out to be base stations join the known lighthouses. Devices still
 * being looked at are tracked as KnownDevice entries whose state moves through
 * Identifying, Unknown, NotLighthouse and Lighthouse.
 */
module Scanning {
  import opened Wrappers
  import opened Framework
  import opened AddressCodec
  import Lighthouses
  import Gatt
  import Devices

  /** KnownDevice.KnownDeviceType; Identifying is the first member and so the default. */
  datatype KnownDeviceType = Identifying | Unknown | NotLighthouse | Lighthouse

  class KnownDevice {
    const name: string
    const bluetoothAddress: ulong
    const id: string
    var deviceType: KnownDeviceType

    constructor(name: string, bluetoothAddress: ulong, id: string)
      ensures this.name == name && this.bluetoothAddress == bluetoothAddress && this.id == id
      ensures deviceType == Identifying
    {
      this.name := name;
      this.bluetoothAddress := bluetoothAddress;
      this.id := id;
      deviceType := Identifying;
    }
  }

  /** Why a call or a handler throws. */
  datatype ScanFault =
    | NoAdapter                  // "Bluetooth is not available"
    | NoAddressProperty          // "Failed to get Bluetooth address"
    | BadAddress(e: ParseError)  // StringToAddress rejected the watcher's address text

  /** How an identification attempt ended. */
  datatype Verdict =
    | Identified(result: Devices.DeviceType)
    | Failed   // an exception was caught; the entry becomes Unknown

  datatype HandlerOutcome = Ignored | Threw(fault: ScanFault) | Ran(verdict: Verdict)

  function AtAddress(address: ulong): Devices.LighthouseDevice -> bool {
    (l: Devices.LighthouseDevice) => l.bluetoothAddress == address
  }

  function KnownAtAddress(address: ulong): KnownDevice -> bool {
    (k: KnownDevice) => k.bluetoothAddress == address
  }

  function KnownWithId(id: string): KnownDevice -> bool {
    (k: KnownDevice) => k.id == id
  }

  /** What Identify on a freshly created device answers for the given platform replies. */
  function FreshIdentify(probe: Devices.Probe): Devices.Identification {
    Devices.IdentifySpec(Devices.Handles(true, false, false), probe)
  }

  /**
   * Adding a device entry to the known-device list, as the source does it: List.Add,
   * even when the entry is already in the list.
   */
  function EnlistAsWritten(known: seq<KnownDevice>, device: KnownDevice): (r: seq<KnownDevice>)
    ensures |r| == |known| + 1 && r[..|known|] == known && r[|known|] == device
  {
    known + [device]
  }

  /** Adding a device entry so that every entry is listed once. */
  function Enlist(known: seq<KnownDevice>, device: KnownDevice): (r: seq<KnownDevice>)
    ensures device in r
    ensures multiset(r) == (if device in known then multiset(known) else multiset(known) + multiset{device})
    ensures NoDuplicates(known) ==> NoDuplicates(r)
  {
    if device in known then known else known + [device]
  }

  /**
   * How the identification step lists an entry: AsWritten appends it every time, as
   * LighthouseService.cs does; ListedOnce appends it only when it is not listed yet,
   * which is what the removal after a Lighthouse result relies on.
   */
  datatype Registration = AsWritten | ListedOnce

  function Register(registration: Registration, known: seq<KnownDevice>, device: KnownDevice): (r: seq<KnownDevice>)
    ensures device in r
    ensures registration == ListedOnce && NoDuplicates(known) ==> NoDuplicates(r)
    ensures registration == AsWritten ==> multiset(r) == multiset(known) + multiset{device}
  {
    if registration == AsWritten then EnlistAsWritten(known, device) else Enlist(known, device)
  }

  /**
   * The as-written registration listed twice: an entry re-identified after an Unknown
   * result is appended again, so removing it once — after a Lighthouse result, and
   * again when the user removes the lighthouse — still leaves it in the list.
   */
  lemma StaleEntryAsWritten(device: KnownDevice)
    ensures var listed := EnlistAsWritten(EnlistAsWritten(EnlistAsWritten([], device), device), device);
      device in RemoveFirst(RemoveFirst(listed, device), device)
  {
    var listed := EnlistAsWritten(EnlistAsWritten(EnlistAsWritten([], device), device), device);
    assert listed == [device, device, device];
    assert RemoveFirst(listed, device) == [device, device];
    assert RemoveFirst([device, device], device) == [device];
  }

  /** With Enlist, however often an entry is re-identified, removing it once removes it. */
  lemma {:induction false} EnlistedEntryRemovedOnce(known: seq<KnownDevice>, device: KnownDevice, times: nat)
    requires NoDuplicates(known)
    ensures device !in RemoveFirst(EnlistTimes(known, device, times), device)
  {
    EnlistTimesUnique(known, device, times);
    RemoveFirstFromUnique(EnlistTimes(known, device, times), device);
  }

  /** `times` successive registrations of the same entry. */
  function EnlistTimes(known: seq<KnownDevice>, device: KnownDevice, times: nat): seq<KnownDevice> {
    if times == 0 then known else Enlist(EnlistTimes(known, device, times - 1), device)
  }

  lemma {:induction false} EnlistTimesUnique(known: seq<KnownDevice>, device: KnownDevice, times: nat)
    requires NoDuplicates(known)
    ensures NoDuplicates(EnlistTimes(known, device, times))
  {
    if times > 0 {
      EnlistTimesUnique(known, device, times - 1);
    }
  }

  class LighthouseService {
    /** How OnFoundPossibleLighthouse lists an entry; see Registration. */
    const registration: Registration
    var knownLighthouses: seq<Devices.LighthouseDevice>
    var knownDevices: seq<KnownDevice>
    var isScanning: bool
    /** Every OnFound event raised so far, oldest first. */
    ghost var onFound: seq<Devices.LighthouseDevice>

    /**
     * With the ListedOnce registration, between handler runs every device entry is listed
     * once and none is left in the Identifying state, so the Added guard only turns away
     * settled entries. The as-written registration keeps neither.
     */
    ghost predicate Valid()
      reads this, knownDevices
    {
      registration == ListedOnce ==>
        && NoDuplicates(knownDevices)
        && forall k :: k in knownDevices ==> k.deviceType != Identifying
    }

    constructor(registration: Registration)
      ensures Valid() && this.registration == registration
      ensures knownLighthouses == [] && knownDevices == [] && !isScanning && onFound == []
    {
      this.registration := registration;
      knownLighthouses := [];
      knownDevices := [];
      isScanning := false;
      onFound := [];
    }

    /** StartScan throws without a BLE adapter; otherwise scanning is on afterwards. */
    method StartScan(hasAdapter: bool) returns (r: Result<(), ScanFault>)
      modifies this
      ensures !hasAdapter ==> r == Err(NoAdapter) && isScanning == old(isScanning)
      ensures hasAdapter ==> r == Ok(()) && isScanning
      ensures knownLighthouses == old(knownLighthouses) && knownDevices == old(knownDevices) && onFound == old(onFound)
    {
      if !hasAdapter {
        return Err(NoAdapter);
      }
      if isScanning {
        return Ok(());
      }
      isScanning := true;
      r := Ok(());
    }

    /** StopScan: scanning is off afterwards, whether or not it was on. */
    method StopScan()
      modifies this
      ensures !isScanning
      ensures knownLighthouses == old(knownLighthouses) && knownDevices == old(knownDevices) && onFound == old(onFound)
    {
      if !isScanning {
        return;
      }
      isScanning := false;
    }

    /** The watcher's EnumerationCompleted handler stops the scan. */
    method EnumerationCompleted()
      modifies this
      ensures !isScanning
      ensures knownLighthouses == old(knownLighthouses) && knownDevices == old(knownDevices) && onFound == old(onFound)
    {
      StopScan();
    }

    /** The first known lighthouse at the address, or null. */
    function GetLighthouse(bluetoothAddress: ulong): (r: Option<Devices.LighthouseDevice>)
      reads this
      ensures r.None? <==> forall l :: l in knownLighthouses ==> l.bluetoothAddress != bluetoothAddress
      ensures r.Some? ==> r.value.bluetoothAddress == bluetoothAddress
                          && exists i :: 0 <= i < |knownLighthouses| && knownLighthouses[i] == r.value
                                         && forall j :: 0 <= j < i ==> knownLighthouses[j].bluetoothAddress != bluetoothAddress
    {
      var i := FirstWhere(knownLighthouses, AtAddress(bluetoothAddress));
      if i.Some? then Some(knownLighthouses[i.value]) else None
    }

    /** The string overload: parse the address text, then look it up. */
    function GetLighthouseByText(bluetoothAddress: string): (r: Result<Option<Devices.LighthouseDevice>, ParseError>)
      reads this
      ensures StringToAddress(bluetoothAddress).Err? ==> r == Err(StringToAddress(bluetoothAddress).error)
      ensures StringToAddress(bluetoothAddress).Ok? ==> r == Ok(GetLighthouse(StringToAddress(bluetoothAddress).value))
    {
      match StringToAddress(bluetoothAddress)
      case Ok(address) => Ok(GetLighthouse(address))
      case Err(e) => Err(e)
    }

    /**
     * RemoveLighthouse: drops and disposes the first known lighthouse at the address, and
     * drops the first device entry at the address; every other entry stays, in order, and
     * every other lighthouse keeps its handles.
     */
    method RemoveLighthouse(bluetoothAddress: string) returns (r: Result<(), ParseError>)
      requires Valid()
      modifies this, knownLighthouses
      ensures Valid()
      ensures StringToAddress(bluetoothAddress).Err? ==>
                && r == Err(StringToAddress(bluetoothAddress).error)
                && knownLighthouses == old(knownLighthouses) && knownDevices == old(knownDevices)
                && forall l :: l in old(knownLighthouses) ==> unchanged(l)
      ensures StringToAddress(bluetoothAddress).Ok? ==>
                var address := StringToAddress(bluetoothAddress).value;
                var i := FirstWhere(old(knownLighthouses), AtAddress(address));
                var k := FirstWhere(old(knownDevices), KnownAtAddress(address));
                && r == Ok(())
                && knownLighthouses == (if i.Some? then RemoveAt(old(knownLighthouses), i.value) else old(knownLighthouses))
                && knownDevices == (if k.Some? then RemoveAt(old(knownDevices), k.value) else old(knownDevices))
                && (i.Some? ==>
                      var removed := old(knownLighthouses)[i.value];
                      && removed.Held() == Devices.Handles(false, false, old(removed.hasPowerCharacteristic))
                      && removed.disconnections == old(removed.disconnections)
                      && forall l :: l in old(knownLighthouses) && l != removed ==> unchanged(l))
                && (i.None? ==> forall l :: l in old(knownLighthouses) ==> unchanged(l))
      ensures isScanning == old(isScanning) && onFound == old(onFound)
    {
      var parsed := StringToAddress(bluetoothAddress);
      if parsed.Err? {
        return Err(parsed.error);
      }
      var address := parsed.value;
      var i := FirstWhere(knownLighthouses, AtAddress(address));
      if i.Some? {
        var device := knownLighthouses[i.value];
        knownLighthouses := RemoveAt(knownLighthouses, i.value);
        device.Dispose();
      }
      var k := FirstWhere(knownDevices, KnownAtAddress(address));
      if k.Some? {
        ghost var before := knownDevices;
        knownDevices := RemoveAt(knownDevices, k.value);
        assert forall x :: x in knownDevices ==> x in before;
      }
      r := Ok(());
    }

    /**
     * The Added handler. `addressProperty` is the watcher's address text (None when the
     * property is missing); `deviceFound` and `probe` are the platform's answers while
     * the device is identified. `entry` is the device entry that was identified: the
     * listed one with the watcher's id, or a new one.
     */
    method DeviceWatcherAdded(name: string, id: string, addressProperty: Option<string>,
                              deviceFound: bool, probe: Devices.Probe)
      returns (outcome: HandlerOutcome, entry: Option<KnownDevice>)
      requires Valid()
      modifies this, knownDevices
      ensures Valid()
      ensures outcome.Threw? <==>
                StartsWith(name, Lighthouses.V2Prefix)
                && (addressProperty.None? || StringToAddress(addressProperty.value).Err?)
      ensures StartsWith(name, Lighthouses.V2Prefix) && addressProperty.None? ==> outcome == Threw(NoAddressProperty)
      ensures StartsWith(name, Lighthouses.V2Prefix) && addressProperty.Some?
              && StringToAddress(addressProperty.value).Err? ==>
                outcome == Threw(BadAddress(StringToAddress(addressProperty.value).error))
      ensures outcome.Ran? <==>
                && StartsWith(name, Lighthouses.V2Prefix)
                && addressProperty.Some? && StringToAddress(addressProperty.value).Ok?
                && FirstWhere(old(knownLighthouses), AtAddress(StringToAddress(addressProperty.value).value)).None?
                && var known := FirstWhere(old(knownDevices), KnownWithId(id));
                   known.Some? ==> old(knownDevices[known.value].deviceType) == Unknown
      ensures !outcome.Ran? ==> unchanged(this) && unchanged(knownDevices)
      ensures outcome.Ran? ==>
                && entry.Some?
                && (var known := FirstWhere(old(knownDevices), KnownWithId(id));
                    && (known.Some? ==> entry.value == old(knownDevices)[known.value])
                    && (known.None? ==>
                          && fresh(entry.value) && entry.value.name == name && entry.value.id == id
                          && entry.value.bluetoothAddress == StringToAddress(addressProperty.value).value))
                && IdentifiedAs(entry.value, deviceFound, probe, outcome.verdict)
                && forall k :: k in old(knownDevices) && k != entry.value ==> unchanged(k)
    {
      entry := None;
      if !StartsWith(name, Lighthouses.V2Prefix) {
        return Ignored, entry;
      }
      if addressProperty.None? {
        return Threw(NoAddressProperty), entry;
      }
      var parsed := StringToAddress(addressProperty.value);
      if parsed.Err? {
        return Threw(BadAddress(parsed.error)), entry;
      }
      var address := parsed.value;
      var known := FirstWhere(knownDevices, KnownWithId(id));
      if known.Some? && knownDevices[known.value].deviceType != Unknown {
        return Ignored, entry;
      }
      if FirstWhere(knownLighthouses, AtAddress(address)).Some? {
        return Ignored, entry;
      }
      var device: KnownDevice;
      if known.Some? {
        device := knownDevices[known.value];
      } else {
        device := new KnownDevice(name, address, id);
      }
      entry := Some(device);
      var verdict := OnFoundPossibleLighthouse(device, deviceFound, probe);
      outcome := Ran(verdict);
    }

    /** The Updated handler: only an entry left Unknown, with a base-station name, is tried again. */
    method DeviceWatcherUpdated(id: string, deviceFound: bool, probe: Devices.Probe) returns (outcome: HandlerOutcome)
      requires Valid()
      modifies this, knownDevices
      ensures Valid()
      ensures outcome.Ran? <==>
                var known := FirstWhere(old(knownDevices), KnownWithId(id));
                && known.Some?
                && old(knownDevices[known.value].deviceType) == Unknown
                && StartsWith(old(knownDevices[known.value]).name, Lighthouses.V2Prefix)
      ensures !outcome.Ran? ==> outcome == Ignored && unchanged(this) && unchanged(knownDevices)
      ensures outcome.Ran? ==>
                var entry := old(knownDevices)[FirstWhere(old(knownDevices), KnownWithId(id)).value];
                && IdentifiedAs(entry, deviceFound, probe, outcome.verdict)
                && forall k :: k in old(knownDevices) && k != entry ==> unchanged(k)
    {
      var known := FirstWhere(knownDevices, KnownWithId(id));
      if known.None? {
        return Ignored;
      }
      var device := knownDevices[known.value];
      if device.deviceType != Unknown {
        return Ignored;
      }
      if !StartsWith(device.name, Lighthouses.V2Prefix) {
        return Ignored;
      }
      var verdict := OnFoundPossibleLighthouse(device, deviceFound, probe);
      outcome := Ran(verdict);
    }

    /**
     * What identifying `device` did, from the state before to the state after. Without a
     * device from the platform the caught exception settles the entry as Unknown and
     * nothing else changes. Otherwise the entry is listed (unless a lighthouse at its
     * address is already known) and marked Identifying while Identify runs; a Lighthouse
     * result joins the known lighthouses, raises OnFound and removes the entry once,
     * leaving its state Identifying, and any other result settles the entry's state.
     */
    twostate predicate IdentifiedAs(new device: KnownDevice, deviceFound: bool, probe: Devices.Probe, verdict: Verdict)
      reads this, device, knownLighthouses
    {
      && isScanning == old(isScanning)
      && if !deviceFound then
           && verdict == Failed && device.deviceType == Unknown
           && knownLighthouses == old(knownLighthouses) && knownDevices == old(knownDevices) && onFound == old(onFound)
         else
           var result := FreshIdentify(probe).result;
           var listed := if FirstWhere(old(knownLighthouses), AtAddress(device.bluetoothAddress)).Some?
                         then old(knownDevices) else Register(registration, old(knownDevices), device);
           var n := |old(knownLighthouses)|;
           && result.Ok? && verdict == Identified(result.value)
           && (result.value == Devices.Lighthouse ==>
                 && |knownLighthouses| == n + 1 && knownLighthouses[..n] == old(knownLighthouses)
                 && fresh(knownLighthouses[n])
                 && knownLighthouses[n].bluetoothAddress == device.bluetoothAddress
                 && knownLighthouses[n].IsInitialized()
                 && onFound == old(onFound) + [knownLighthouses[n]]
                 && knownDevices == RemoveFirst(listed, device)
                 && device.deviceType == Identifying)
           && (result.value == Devices.NotLighthouse ==>
                 && device.deviceType == NotLighthouse && knownDevices == listed
                 && knownLighthouses == old(knownLighthouses) && onFound == old(onFound))
           && (result.value == Devices.Unknown ==>
                 && device.deviceType == Unknown && knownDevices == listed
                 && knownLighthouses == old(knownLighthouses) && onFound == old(onFound))
    }

    /** Identify the device behind an entry; see IdentifiedAs. */
    method OnFoundPossibleLighthouse(device: KnownDevice, deviceFound: bool, probe: Devices.Probe)
      returns (verdict: Verdict)
      requires Valid()
      modifies this, device
      ensures Valid()
      ensures IdentifiedAs(device, deviceFound, probe, verdict)
      ensures registration == ListedOnce && deviceFound && verdict == Identified(Devices.Lighthouse) ==>
                device !in knownDevices
    {
      if !deviceFound {
        SettleEntry(device, Unknown);
        return Failed;
      }
      var lighthouse := new Devices.LighthouseDevice(device.bluetoothAddress);
      Enroll(device);
      Devices.NullDeviceIff(lighthouse.Held(), probe);
      Devices.LighthouseIffCached(lighthouse.Held(), probe);
      var id := lighthouse.Identify(probe);
      if id.result == Ok(Devices.Lighthouse) {
        AcceptLighthouse(device, lighthouse);
        verdict := Identified(Devices.Lighthouse);
      } else if id.result == Ok(Devices.NotLighthouse) {
        SettleEntry(device, NotLighthouse);
        verdict := Identified(Devices.NotLighthouse);
      } else {
        SettleEntry(device, Unknown);
        verdict := if id.result.Ok? then Identified(id.result.value) else Failed;
      }
    }

    /** With ListedOnce, every listed entry but `device` is settled, and every entry is listed once. */
    ghost predicate SettledExcept(device: KnownDevice)
      reads this, knownDevices
    {
      registration == ListedOnce ==>
        && NoDuplicates(knownDevices)
        && forall k :: k in knownDevices && k != device ==> k.deviceType != Identifying
    }

    /** List the entry (unless a lighthouse at its address is known) and mark it Identifying. */
    method Enroll(device: KnownDevice)
      requires Valid()
      modifies this, device
      ensures SettledExcept(device) && device.deviceType == Identifying
      ensures knownDevices == (if FirstWhere(knownLighthouses, AtAddress(device.bluetoothAddress)).Some?
                               then old(knownDevices) else Register(registration, old(knownDevices), device))
      ensures knownLighthouses == old(knownLighthouses) && onFound == old(onFound) && isScanning == old(isScanning)
    {
      if FirstWhere(knownLighthouses, AtAddress(device.bluetoothAddress)).None? {
        knownDevices := Register(registration, knownDevices, device);
      }
      device.deviceType := Identifying;
    }

    /** A Lighthouse result: record and announce the device, and remove its entry once. */
    method AcceptLighthouse(device: KnownDevice, lighthouse: Devices.LighthouseDevice)
      requires SettledExcept(device)
      modifies this
      ensures Valid() && (registration == ListedOnce ==> device !in knownDevices)
      ensures knownLighthouses == old(knownLighthouses) + [lighthouse] && onFound == old(onFound) + [lighthouse]
      ensures knownDevices == RemoveFirst(old(knownDevices), device) && isScanning == old(isScanning)
    {
      knownLighthouses := knownLighthouses + [lighthouse];
      onFound := onFound + [lighthouse];
      if registration == ListedOnce {
        RemoveFirstFromUnique(knownDevices, device);
      }
      knownDevices := RemoveFirst(knownDevices, device);
    }

    /** Any other result, or a caught exception: the entry keeps the given state. */
    method SettleEntry(device: KnownDevice, state: KnownDeviceType)
      requires SettledExcept(device) && state != Identifying
      modifies device
      ensures Valid() && device.deviceType == state
    {
      device.deviceType := state;
    }
  }

  /**
   * Whenever AddressToString formats an address (an even number of hex digits, which
   * every address below 2^48 has), its text finds the same lighthouse as the address.
   */
  lemma LookupByAddressText(service: LighthouseService, a: ulong)
    requires |HexText(a)| % 2 == 0
    ensures service.GetLighthouseByText(Colonize(HexText(a))) == Ok(service.GetLighthouse(a))
  {
    AddressRoundTrip(a);
  }

  // A scenario: a base station is reported by the watcher and gives no answer, is reported
  // again and still gives none, is reported a third time and identified, is removed by the
  // user, and is then reported once more.

  const ScenarioName: string := "LHB-1"
  const ScenarioId: string := "id"
  const ScenarioAddress: ulong := 1

  /** The platform answers no query: Identify's result is Unknown. */
  const Silent: Devices.Probe := Devices.Probe(true, [], [])

  /** The platform lists the control service and the power characteristic at once. */
  const Answering: Devices.Probe :=
    Devices.Probe(true, [Gatt.Listing(Gatt.Success, [Gatt.ControlService])],
                  [Gatt.Listing(Gatt.Success, [Gatt.PowerCharacteristic])])

  function ScenarioText(): string {
    Colonize(HexText(ScenarioAddress))
  }

  lemma ScenarioFacts()
    ensures StringToAddress(ScenarioText()) == Ok(ScenarioAddress)
    ensures StartsWith(ScenarioName, Lighthouses.V2Prefix)
    ensures FreshIdentify(Silent).result == Ok(Devices.Unknown)
    ensures FreshIdentify(Answering).result == Ok(Devices.Lighthouse)
  {
    AddressTextIsCanonical(ScenarioAddress);
    AddressRoundTrip(ScenarioAddress);
  }

  /** The first report lists a new entry, which no answer leaves Unknown. */
  method FirstReport(service: LighthouseService) returns (e: KnownDevice)
    requires service.Valid() && service.knownDevices == [] && service.knownLighthouses == []
    modifies service
    ensures service.Valid() && service.knownDevices == [e] && service.knownLighthouses == []
    ensures fresh(e) && e.deviceType == Unknown && e.name == ScenarioName && e.id == ScenarioId
    ensures e.bluetoothAddress == ScenarioAddress
  {
    ScenarioFacts();
    var outcome, entry := service.DeviceWatcherAdded(ScenarioName, ScenarioId, Some(ScenarioText()), true, Silent);
    e := entry.value;
  }

  /** The second report finds the Unknown entry and lists it again or keeps it listed once. */
  method SecondReport(service: LighthouseService, e: KnownDevice)
    requires service.Valid() && service.knownDevices == [e] && service.knownLighthouses == []
    requires e.deviceType == Unknown && e.id == ScenarioId && e.bluetoothAddress == ScenarioAddress
    requires StartsWith(e.name, Lighthouses.V2Prefix)
    modifies service, e
    ensures service.Valid() && service.knownLighthouses == []
    ensures service.knownDevices == (if service.registration == AsWritten then [e, e] else [e])
    ensures e.deviceType == Unknown
  {
    ScenarioFacts();
    var outcome := service.DeviceWatcherUpdated(ScenarioId, true, Silent);
  }

  /** The third report identifies the base station; its entry is removed once and stays Identifying. */
  method ThirdReport(service: LighthouseService, e: KnownDevice) returns (l: Devices.LighthouseDevice)
    requires service.Valid() && service.knownLighthouses == []
    requires service.knownDevices == (if service.registration == AsWritten then [e, e] else [e])
    requires e.deviceType == Unknown && e.id == ScenarioId && e.bluetoothAddress == ScenarioAddress
    requires StartsWith(e.name, Lighthouses.V2Prefix)
    modifies service, e
    ensures service.Valid()
    ensures service.knownLighthouses == [l] && fresh(l) && l.bluetoothAddress == ScenarioAddress
    ensures service.knownDevices == (if service.registration == AsWritten then [e, e] else [])
    ensures e.deviceType == Identifying
  {
    ghost var listed := Register(service.registration, service.knownDevices, e);
    if service.registration == AsWritten {
      assert listed == [e, e, e] && RemoveFirst(listed, e) == [e, e];
    } else {
      assert listed == [e] && RemoveFirst(listed, e) == [];
    }
    l := IdentifyListed(service, e, RemoveFirst(listed, e));
  }

  /** The third report, for the list that removing the entry once leaves. */
  method IdentifyListed(service: LighthouseService, e: KnownDevice, ghost after: seq<KnownDevice>)
    returns (l: Devices.LighthouseDevice)
    requires service.Valid() && service.knownLighthouses == []
    requires service.knownDevices != [] && service.knownDevices[0] == e
    requires RemoveFirst(Register(service.registration, service.knownDevices, e), e) == after
    requires e.deviceType == Unknown && e.id == ScenarioId && e.bluetoothAddress == ScenarioAddress
    requires StartsWith(e.name, Lighthouses.V2Prefix)
    modifies service, service.knownDevices
    ensures service.Valid()
    ensures service.knownLighthouses == [l] && fresh(l) && l.bluetoothAddress == ScenarioAddress
    ensures service.knownDevices == after && e.deviceType == Identifying
  {
    ScenarioFacts();
    assert FirstWhere(service.knownDevices, KnownWithId(ScenarioId)) == Some(0);
    var outcome := service.DeviceWatcherUpdated(ScenarioId, true, Answering);
    l := service.knownLighthouses[0];
    assert service.knownLighthouses == [l];
  }

  /** Removing the lighthouse drops it and the first entry at its address. */
  method Removal(service: LighthouseService, e: KnownDevice, l: Devices.LighthouseDevice)
    requires service.Valid()
    requires service.knownLighthouses == [l] && l.bluetoothAddress == ScenarioAddress
    requires service.knownDevices == (if service.registration == AsWritten then [e, e] else [])
    requires e.bluetoothAddress == ScenarioAddress
    modifies service, l
    ensures service.Valid() && service.knownLighthouses == []
    ensures service.knownDevices == (if service.registration == AsWritten then [e] else [])
  {
    ScenarioFacts();
    var r := service.RemoveLighthouse(ScenarioText());
  }

  /** The result of the last report, after the whole scenario. */
  method ReportAfterRemoval(registration: Registration) returns (outcome: HandlerOutcome)
    ensures registration == AsWritten ==> outcome == Ignored
    ensures registration == ListedOnce ==> outcome == Ran(Identified(Devices.Lighthouse))
  {
    ScenarioFacts();
    var service := new LighthouseService(registration);
    var e := FirstReport(service);
    SecondReport(service, e);
    outcome := IdentifyRemoveReport(service, e);
  }

  /** The third report, the removal and the last report. */
  method IdentifyRemoveReport(service: LighthouseService, e: KnownDevice) returns (outcome: HandlerOutcome)
    requires service.Valid() && service.knownLighthouses == []
    requires service.knownDevices == (if service.registration == AsWritten then [e, e] else [e])
    requires e.deviceType == Unknown && e.id == ScenarioId && e.bluetoothAddress == ScenarioAddress
    requires StartsWith(e.name, Lighthouses.V2Prefix)
    modifies service, e
    ensures service.registration == AsWritten ==> outcome == Ignored
    ensures service.registration == ListedOnce ==> outcome == Ran(Identified(Devices.Lighthouse))
  {
    var l := ThirdReport(service, e);
    Removal(service, e, l);
    outcome := LastReport(service, e);
  }

  /** The last report: turned away by a stale Identifying entry, or identified afresh. */
  method LastReport(service: LighthouseService, e: KnownDevice) returns (outcome: HandlerOutcome)
    requires service.Valid() && service.knownLighthouses == []
    requires service.knownDevices == (if service.registration == AsWritten then [e] else [])
    requires e.deviceType == Identifying && e.id == ScenarioId
    modifies service, service.knownDevices
    ensures service.registration == AsWritten ==> outcome == Ignored
    ensures service.registration == ListedOnce ==> outcome == Ran(Identified(Devices.Lighthouse))
  {
    ScenarioFacts();
    assert service.registration == AsWritten ==> FirstWhere(service.knownDevices, KnownWithId(ScenarioId)) == Some(0);
    var entry;
    outcome, entry := service.DeviceWatcherAdded(ScenarioName, ScenarioId, Some(ScenarioText()), true, Answering);
  }

  /** As written, the removed base station's stale entry makes the watcher's next report be ignored. */
  method RemovedLighthouseIgnoredAsWritten() returns (outcome: HandlerOutcome)
    ensures outcome == Ignored
  {
    outcome := ReportAfterRemoval(AsWritten);
  }

  /** Listing each entry once, the removed base station is identified again when next reported. */
  method RemovedLighthouseRediscovered() returns (outcome: HandlerOutcome)
    ensures outcome == Ran(Identified(Devices.Lighthouse))
  {
    outcome := ReportAfterRemoval(ListedOnce);
  }
}
