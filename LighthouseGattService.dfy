/**
 * LighthouseGattService: sends one power command to a base station. It looks the device
 * up by address, then the control service, then the power characteristic, and finally
 * writes one byte. Each of the four steps retries every failure up to five times with a
 * 200 ms pause after each failed attempt. A failed device lookup also asks the
 * discovery service to start scanning.
 */
module GattService {
  import opened Wrappers
  import opened Framework
  import opened Gatt
  import opened Lighthouses
  import opened Discovery

  /** Why a power command throws. */
  datatype GattFailure =
    | NotFound                             // LighthouseGattException "Lighthouse not found"
    | ServiceFailed(status: GattStatus)    // Exception: no control service; the last status
    | CharacteristicFailed(status: GattStatus)  // LighthouseGattException: no power characteristic
    | WriteFailed(status: GattStatus)      // LighthouseGattException: the write never succeeded

  /** The service step throws a plain Exception; the other three throw a LighthouseGattException. */
  predicate IsGattException(f: GattFailure) {
    !f.ServiceFailed?
  }

  /** The scripted platform: one answer per attempt of each of the four steps. */
  datatype Transport = Transport(
    devices: seq<bool>,
    services: seq<Listing>,
    characteristics: seq<Listing>,
    writes: seq<GattStatus>)

  /** Which of the attempts would be accepted, one verdict per attempt of the budget. */
  function DeviceVerdicts(devices: seq<bool>): (v: seq<bool>)
    ensures |v| == RetryCount
  {
    seq(RetryCount, i requires 0 <= i => FoundAt(devices, i))
  }

  /** A service or characteristic query is accepted on Success with at least one entry. */
  function ListingVerdicts(listings: seq<Listing>): (v: seq<bool>)
    ensures |v| == RetryCount
  {
    seq(RetryCount, i requires 0 <= i => ListingAt(listings, i).status == Success && |ListingAt(listings, i).uuids| > 0)
  }

  function WriteVerdicts(writes: seq<GattStatus>): (v: seq<bool>)
    ensures |v| == RetryCount
  {
    seq(RetryCount, i requires 0 <= i => StatusAt(writes, i) == Success)
  }

  /** The first accepted attempt at or after i, if any. */
  function FirstFrom(verdicts: seq<bool>, i: nat): (r: Option<nat>)
    requires i <= |verdicts|
    ensures r.Some? ==> i <= r.value < |verdicts| && verdicts[r.value]
                        && forall j :: i <= j < r.value ==> !verdicts[j]
    ensures r.None? ==> forall j :: i <= j < |verdicts| ==> !verdicts[j]
    decreases |verdicts| - i
  {
    if i == |verdicts| then None
    else if verdicts[i] then Some(i)
    else FirstFrom(verdicts, i + 1)
  }

  /** The attempt a retry loop stops at: the first accepted one, or None after the whole budget. */
  function FirstAccepted(verdicts: seq<bool>): (r: Option<nat>)
    ensures r.Some? ==> r.value < |verdicts| && verdicts[r.value] && forall j :: 0 <= j < r.value ==> !verdicts[j]
    ensures r.None? ==> forall j :: 0 <= j < |verdicts| ==> !verdicts[j]
  {
    FirstFrom(verdicts, 0)
  }

  /** How many attempts a step makes: up to and including the accepted one, or the whole budget. */
  function Attempts(first: Option<nat>): nat {
    if first.Some? then first.value + 1 else RetryCount
  }

  /** How many 200 ms pauses a step takes: one per failed attempt. */
  function Pauses(first: Option<nat>): nat {
    if first.Some? then first.value else RetryCount
  }

  /** What one power command did: its outcome, the attempts of each step, the bytes written and the pauses. */
  datatype Exchange = Exchange(
    outcome: Result<(), GattFailure>,
    lookups: nat,
    serviceQueries: nat,
    characteristicQueries: nat,
    written: seq<byte>,
    pauses: nat)

  /** The four steps in order; the first step that exhausts its budget ends the command. */
  function WriteExchange(t: Transport, data: byte): Exchange {
    var d := FirstAccepted(DeviceVerdicts(t.devices));
    var s := FirstAccepted(ListingVerdicts(t.services));
    var c := FirstAccepted(ListingVerdicts(t.characteristics));
    var w := FirstAccepted(WriteVerdicts(t.writes));
    if d.None? then
      Exchange(Err(NotFound), RetryCount, 0, 0, [], RetryCount)
    else if s.None? then
      Exchange(Err(ServiceFailed(ListingAt(t.services, RetryCount - 1).status)),
               Attempts(d), RetryCount, 0, [], Pauses(d) + RetryCount)
    else if c.None? then
      Exchange(Err(CharacteristicFailed(ListingAt(t.characteristics, RetryCount - 1).status)),
               Attempts(d), Attempts(s), RetryCount, [], Pauses(d) + Pauses(s) + RetryCount)
    else
      Exchange(if w.Some? then Ok(()) else Err(WriteFailed(StatusAt(t.writes, RetryCount - 1))),
               Attempts(d), Attempts(s), Attempts(c), seq(Attempts(w), _ => data),
               Pauses(d) + Pauses(s) + Pauses(c) + Pauses(w))
  }

  /** How many of the four steps completed before the command ended. */
  function StepsCompleted(outcome: Result<(), GattFailure>): nat {
    match outcome
    case Ok(_) => 4
    case Err(NotFound) => 0
    case Err(ServiceFailed(_)) => 1
    case Err(CharacteristicFailed(_)) => 2
    case Err(WriteFailed(_)) => 3
  }

  /** No step makes more than five attempts. */
  lemma AttemptBounds(t: Transport, data: byte)
    ensures var e := WriteExchange(t, data);
      && 1 <= e.lookups <= RetryCount && e.serviceQueries <= RetryCount
      && e.characteristicQueries <= RetryCount && |e.written| <= RetryCount
  {
  }

  /** The steps run in order: a step that throws leaves every later step unattempted. */
  lemma StepsInOrder(t: Transport, data: byte)
    ensures var e := WriteExchange(t, data);
      && (e.serviceQueries > 0 <==> e.outcome != Err(NotFound))
      && (e.characteristicQueries > 0 <==> e.outcome.Ok? || e.outcome.error.CharacteristicFailed? || e.outcome.error.WriteFailed?)
      && (|e.written| > 0 <==> e.outcome.Ok? || e.outcome.error.WriteFailed?)
      && (e.serviceQueries > 0 ==> FoundAt(t.devices, e.lookups - 1))
  {
  }

  /** Only the command's byte is ever written, and success means the last write was acknowledged. */
  lemma OnlyPayloadWritten(t: Transport, data: byte)
    ensures var e := WriteExchange(t, data);
      && (forall k :: 0 <= k < |e.written| ==> e.written[k] == data)
      && (e.outcome.Ok? ==> |e.written| >= 1 && StatusAt(t.writes, |e.written| - 1) == Success)
  {
  }

  /** One pause per failed attempt: the attempts of all steps minus the ones that succeeded. */
  lemma {:induction false} PausesCountFailures(t: Transport, data: byte)
    ensures var e := WriteExchange(t, data);
      e.pauses + StepsCompleted(e.outcome) == e.lookups + e.serviceQueries + e.characteristicQueries + |e.written|
  {
  }

  /** A failing step reports the status of its fifth and last attempt. */
  lemma FailureCarriesLastStatus(t: Transport, data: byte)
    ensures var e := WriteExchange(t, data);
      && (e.outcome.Err? && e.outcome.error.ServiceFailed? ==>
            e.serviceQueries == RetryCount && e.outcome.error.status == ListingAt(t.services, RetryCount - 1).status)
      && (e.outcome.Err? && e.outcome.error.CharacteristicFailed? ==>
            e.characteristicQueries == RetryCount
            && e.outcome.error.status == ListingAt(t.characteristics, RetryCount - 1).status)
      && (e.outcome.Err? && e.outcome.error.WriteFailed? ==>
            |e.written| == RetryCount && e.outcome.error.status == StatusAt(t.writes, RetryCount - 1))
  {
  }

  /** A device that answers Success with an empty list every time fails the service step "with" Success. */
  lemma EmptyServiceListsFail(t: Transport, data: byte)
    requires FoundAt(t.devices, 0)
    requires forall i :: 0 <= i < RetryCount ==> ListingAt(t.services, i) == Listing(Success, [])
    ensures WriteExchange(t, data).outcome == Err(ServiceFailed(Success))
  {
    var v := ListingVerdicts(t.services);
    assert forall j :: 0 <= j < RetryCount ==> !v[j];
  }

  /**
   * Every failure is retried: refusals such as ProtocolError or AccessDenied do not end a
   * step early, so a step whose fifth attempt succeeds still succeeds.
   */
  lemma {:induction false} LastChanceSucceeds(t: Transport, data: byte)
    requires FoundAt(t.devices, 0)
    requires forall i :: 0 <= i < RetryCount - 1 ==> ListingAt(t.services, i).status != Success
    requires ListingAt(t.services, RetryCount - 1).status == Success && |ListingAt(t.services, RetryCount - 1).uuids| > 0
    ensures var e := WriteExchange(t, data);
      e.serviceQueries == RetryCount && !(e.outcome.Err? && e.outcome.error.ServiceFailed?)
  {
    var v := ListingVerdicts(t.services);
    assert forall j :: 0 <= j < RetryCount - 1 ==> !v[j];
    assert v[RetryCount - 1];
  }

  /** A command succeeds exactly when each of the four steps has an accepted attempt within its budget. */
  lemma SuccessNeedsEveryStep(t: Transport, data: byte)
    ensures WriteExchange(t, data).outcome.Ok? <==>
      && FirstAccepted(DeviceVerdicts(t.devices)).Some?
      && FirstAccepted(ListingVerdicts(t.services)).Some?
      && FirstAccepted(ListingVerdicts(t.characteristics)).Some?
      && FirstAccepted(WriteVerdicts(t.writes)).Some?
  {
  }

  class LighthouseGattService {
    const discovery: LighthouseDiscoveryService

    constructor(discovery: LighthouseDiscoveryService)
      ensures this.discovery == discovery
    {
      this.discovery := discovery;
    }

    /** PowerOnAsync writes 0x01, whatever the base station's generation. */
    method PowerOnAsync(lighthouse: Lighthouse, t: Transport) returns (e: Exchange)
      requires discovery.Valid()
      modifies discovery
      ensures discovery.Valid()
      ensures e == WriteExchange(t, Payload(PowerOn))
      ensures DiscoveryNudged(old(discovery.isDiscovering), old(discovery.foundLighthouses), old(discovery.found), e.lookups, e.outcome)
    {
      e := WritePowerCharacteristic(lighthouse, 0x01, t);
    }

    /** SleepAsync writes 0x00, whatever the base station's generation. */
    method SleepAsync(lighthouse: Lighthouse, t: Transport) returns (e: Exchange)
      requires discovery.Valid()
      modifies discovery
      ensures discovery.Valid()
      ensures e == WriteExchange(t, Payload(Sleep))
      ensures DiscoveryNudged(old(discovery.isDiscovering), old(discovery.foundLighthouses), old(discovery.found), e.lookups, e.outcome)
    {
      e := WritePowerCharacteristic(lighthouse, 0x00, t);
    }

    /** StandbyAsync writes 0x02, whatever the base station's generation. */
    method StandbyAsync(lighthouse: Lighthouse, t: Transport) returns (e: Exchange)
      requires discovery.Valid()
      modifies discovery
      ensures discovery.Valid()
      ensures e == WriteExchange(t, Payload(Standby))
      ensures DiscoveryNudged(old(discovery.isDiscovering), old(discovery.foundLighthouses), old(discovery.found), e.lookups, e.outcome)
    {
      e := WritePowerCharacteristic(lighthouse, 0x02, t);
    }

    /**
     * The state of the discovery service after a command whose device lookup made
     * `lookups` attempts: every failed lookup called StartDiscovery once.
     */
    ghost predicate DiscoveryNudged(wasDiscovering: bool, wasFound: map<string, Lighthouse>,
                                    wasEvents: seq<Lighthouse>, lookups: nat, outcome: Result<(), GattFailure>)
      reads discovery
    {
      var nudged := outcome == Err(NotFound) || lookups > 1;
      && discovery.found == wasEvents
      && (nudged ==> discovery.isDiscovering)
      && (nudged && !wasDiscovering ==> discovery.foundLighthouses == map[])
      && (!nudged || wasDiscovering ==>
            discovery.foundLighthouses == wasFound && discovery.isDiscovering == (wasDiscovering || nudged))
    }

    /** The four steps in order; a step that throws ends the command. */
    method WritePowerCharacteristic(lighthouse: Lighthouse, data: byte, t: Transport) returns (e: Exchange)
      requires discovery.Valid()
      modifies discovery
      ensures discovery.Valid()
      ensures e == WriteExchange(t, data)
      ensures DiscoveryNudged(old(discovery.isDiscovering), old(discovery.foundLighthouses), old(discovery.found), e.lookups, e.outcome)
    {
      var device, lookupPauses := GetBluetoothLEDeviceAsync(lighthouse.bluetoothAddress, t.devices);
      if device.Err? {
        return Exchange(Err(NotFound), RetryCount, 0, 0, [], lookupPauses);
      }
      var d := device.value + 1;
      var service, servicePauses := GetControlService(t.services);
      if service.Err? {
        return Exchange(Err(service.error), d, RetryCount, 0, [], lookupPauses + servicePauses);
      }
      var s := service.value + 1;
      var characteristic, characteristicPauses := GetPowerCharacteristic(t.characteristics);
      if characteristic.Err? {
        return Exchange(Err(characteristic.error), d, s, RetryCount, [],
                        lookupPauses + servicePauses + characteristicPauses);
      }
      var c := characteristic.value + 1;
      var outcome, written, writePauses := WriteCharacteristicAsync(data, t.writes);
      e := Exchange(outcome, d, s, c, written, lookupPauses + servicePauses + characteristicPauses + writePauses);
    }

    /**
     * Up to five lookups by address. The result is the attempt that returned a device;
     * each attempt that returned none nudges discovery and pauses once.
     */
    method GetBluetoothLEDeviceAsync(address: ulong, devices: seq<bool>) returns (r: Result<nat, GattFailure>, pauses: nat)
      requires discovery.Valid()
      modifies discovery
      ensures discovery.Valid()
      ensures var first := FirstAccepted(DeviceVerdicts(devices));
        && (first.Some? ==> r == Ok(first.value))
        && (first.None? ==> r == Err(NotFound))
        && pauses == Pauses(first)
      ensures DiscoveryNudged(old(discovery.isDiscovering), old(discovery.foundLighthouses), old(discovery.found),
                              if r.Ok? then r.value + 1 else RetryCount, if r.Ok? then Ok(()) else Err(NotFound))
    {
      pauses := 0;
      var i := 0;
      while i < RetryCount
        invariant 0 <= i <= RetryCount && pauses == i
        invariant forall j :: 0 <= j < i ==> !FoundAt(devices, j)
        invariant discovery.Valid() && discovery.found == old(discovery.found)
        invariant i > 0 ==> discovery.isDiscovering
        invariant i > 0 && !old(discovery.isDiscovering) ==> discovery.foundLighthouses == map[]
        invariant i == 0 || old(discovery.isDiscovering) ==>
                    discovery.foundLighthouses == old(discovery.foundLighthouses)
                    && discovery.isDiscovering == (old(discovery.isDiscovering) || i > 0)
      {
        if FoundAt(devices, i) {
          assert DeviceVerdicts(devices)[i];
          return Ok(i), pauses;
        }
        discovery.StartDiscovery();
        pauses := pauses + 1;
        i := i + 1;
      }
      r := Err(NotFound);
    }

    /** Up to five queries for the control service; only Success with a non-empty list is accepted. */
    static method GetControlService(services: seq<Listing>) returns (r: Result<nat, GattFailure>, pauses: nat)
      ensures var first := FirstAccepted(ListingVerdicts(services));
        && (first.Some? ==> r == Ok(first.value))
        && (first.None? ==> r == Err(ServiceFailed(ListingAt(services, RetryCount - 1).status)))
        && pauses == Pauses(first)
    {
      pauses := 0;
      var status := Success;
      var i := 0;
      while i < RetryCount
        invariant 0 <= i <= RetryCount && pauses == i
        invariant forall j :: 0 <= j < i ==> !ListingVerdicts(services)[j]
        invariant i > 0 ==> status == ListingAt(services, i - 1).status
      {
        var result := ListingAt(services, i);
        status := result.status;
        if status == Success && |result.uuids| > 0 {
          assert ListingVerdicts(services)[i];
          return Ok(i), pauses;
        }
        pauses := pauses + 1;
        i := i + 1;
      }
      r := Err(ServiceFailed(status));
    }

    /** Up to five queries for the power characteristic, accepted like the service query. */
    static method GetPowerCharacteristic(characteristics: seq<Listing>) returns (r: Result<nat, GattFailure>, pauses: nat)
      ensures var first := FirstAccepted(ListingVerdicts(characteristics));
        && (first.Some? ==> r == Ok(first.value))
        && (first.None? ==> r == Err(CharacteristicFailed(ListingAt(characteristics, RetryCount - 1).status)))
        && pauses == Pauses(first)
    {
      pauses := 0;
      var status := Success;
      var i := 0;
      while i < RetryCount
        invariant 0 <= i <= RetryCount && pauses == i
        invariant forall j :: 0 <= j < i ==> !ListingVerdicts(characteristics)[j]
        invariant i > 0 ==> status == ListingAt(characteristics, i - 1).status
      {
        var result := ListingAt(characteristics, i);
        status := result.status;
        if status == Success && |result.uuids| > 0 {
          assert ListingVerdicts(characteristics)[i];
          return Ok(i), pauses;
        }
        pauses := pauses + 1;
        i := i + 1;
      }
      r := Err(CharacteristicFailed(status));
    }

    /** Up to five one-byte writes; the first Success ends the step. */
    static method WriteCharacteristicAsync(data: byte, writes: seq<GattStatus>)
      returns (r: Result<(), GattFailure>, written: seq<byte>, pauses: nat)
      ensures var first := FirstAccepted(WriteVerdicts(writes));
        && (first.Some? ==> r == Ok(()))
        && (first.None? ==> r == Err(WriteFailed(StatusAt(writes, RetryCount - 1))))
        && written == seq(Attempts(first), _ => data)
        && pauses == Pauses(first)
    {
      pauses := 0;
      written := [];
      var status := Success;
      var i := 0;
      while i < RetryCount
        invariant 0 <= i <= RetryCount && pauses == i
        invariant written == seq(i, _ => data)
        invariant forall j :: 0 <= j < i ==> !WriteVerdicts(writes)[j]
        invariant i > 0 ==> status == StatusAt(writes, i - 1)
      {
        status := StatusAt(writes, i);
        written := written + [data];
        if status == Success {
          assert WriteVerdicts(writes)[i];
          return Ok(()), written, pauses;
        }
        pauses := pauses + 1;
        i := i + 1;
      }
      r := Err(WriteFailed(status));
    }
  }
}
