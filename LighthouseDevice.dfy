/**
 * LighthouseDevice: the older, per-device command path. A device object caches three
 * platform handles — the BLE device, its control service and its power characteristic —
 * and Identify fills the missing ones by querying the device. A disconnect drops the
 * service and characteristic handles.
 *
 * A handle is modelled by whether it is set; the platform's answers are a Probe.
 */
module Devices {
  import opened Wrappers
  import opened Framework
  import opened Gatt

  /** LighthouseDevice.DeviceType */
  datatype DeviceType = Unknown | Lighthouse | NotLighthouse

  /** Why a call on the device throws. */
  datatype DeviceFault =
    | NullDevice           // NullReferenceException: no BLE device to query for services
    | NullCharacteristic   // Exception "Power characteristic is null"

  /** BluetoothConnectionStatus */
  datatype ConnectionStatus = Disconnected | Connected

  /** How one query loop ended. */
  datatype PollResult =
    | Answered(listing: Listing, attempts: nat)   // a Success reply ended the loop
    | Refused(status: GattStatus, attempts: nat)  // ProtocolError or AccessDenied ended Identify at once
    | Unanswered                                  // all five replies were Unreachable

  /** The query loop from attempt i on: only Unreachable is retried. */
  function PollFrom(replies: seq<Listing>, i: nat): (r: PollResult)
    requires i <= RetryCount
    ensures r.Answered? ==> i < r.attempts <= RetryCount && r.listing == ListingAt(replies, r.attempts - 1)
                            && r.listing.status == Success
    ensures r.Refused? ==> i < r.attempts <= RetryCount && r.status == ListingAt(replies, r.attempts - 1).status
                           && (r.status == ProtocolError || r.status == AccessDenied)
    ensures !r.Unanswered? ==> forall j :: i <= j < r.attempts - 1 ==> ListingAt(replies, j).status == Unreachable
    ensures r.Unanswered? ==> forall j :: i <= j < RetryCount ==> ListingAt(replies, j).status == Unreachable
    decreases RetryCount - i
  {
    if i == RetryCount then Unanswered
    else
      var reply := ListingAt(replies, i);
      match reply.status
      case Success => Answered(reply, i + 1)
      case ProtocolError => Refused(ProtocolError, i + 1)
      case AccessDenied => Refused(AccessDenied, i + 1)
      case Unreachable => PollFrom(replies, i + 1)
  }

  function Poll(replies: seq<Listing>): PollResult {
    PollFrom(replies, 0)
  }

  function PollAttempts(r: PollResult): nat {
    if r.Unanswered? then RetryCount else r.attempts
  }

  /** One 100 ms pause follows each Unreachable reply; the reply that ends the loop has none. */
  function PollPauses(r: PollResult): nat {
    if r.Unanswered? then RetryCount else if r.attempts > 0 then r.attempts - 1 else 0
  }

  /** Which of the three handles are set. */
  datatype Handles = Handles(device: bool, service: bool, characteristic: bool)

  /** The platform's answers during one Identify: the device re-fetch and the two query scripts. */
  datatype Probe = Probe(deviceFound: bool, services: seq<Listing>, characteristics: seq<Listing>)

  /** What one Identify call did. */
  datatype Identification = Identification(
    result: Result<DeviceType, DeviceFault>,
    after: Handles,
    queries: nat,
    pauses: nat)

  /**
   * Identify: re-fetch a missing device, then look up the control service if it is not
   * cached, then the power characteristic if it is not cached.
   */
  function IdentifySpec(h: Handles, p: Probe): Identification {
    var h1 := h.(device := h.device || p.deviceFound);
    if h1.service then CharacteristicStage(h1, p, 0, 0)
    else if !h1.device then Identification(Err(NullDevice), h1, 0, 0)
    else
      var poll := Poll(p.services);
      var queries := PollAttempts(poll);
      var pauses := PollPauses(poll);
      match poll
      case Unanswered => Identification(Ok(Unknown), h1, queries, pauses)
      case Refused(_, _) => Identification(Ok(NotLighthouse), h1, queries, pauses)
      case Answered(listing, _) =>
        if ControlService in listing.uuids then CharacteristicStage(h1.(service := true), p, queries, pauses)
        else Identification(Ok(NotLighthouse), h1, queries, pauses)
  }

  function CharacteristicStage(h: Handles, p: Probe, queries: nat, pauses: nat): Identification
    requires h.service
  {
    if h.characteristic then Identification(Ok(Lighthouse), h, queries, pauses)
    else
      var poll := Poll(p.characteristics);
      var q := queries + PollAttempts(poll);
      var w := pauses + PollPauses(poll);
      match poll
      case Unanswered => Identification(Ok(Unknown), h, q, w)
      case Refused(_, _) => Identification(Ok(NotLighthouse), h, q, w)
      case Answered(listing, _) =>
        if PowerCharacteristic in listing.uuids then Identification(Ok(Lighthouse), h.(characteristic := true), q, w)
        else Identification(Ok(NotLighthouse), h, q, w)
  }

  /** How a device-path write ended: acknowledged or not, after how many attempts. */
  datatype WriteResult = WriteResult(acknowledged: bool, attempts: nat)

  /** The write loop from attempt i on: Success and the two refusals end it, Unreachable is retried. */
  function WriteFrom(writes: seq<GattStatus>, i: nat): (r: WriteResult)
    requires i <= RetryCount
    ensures i <= r.attempts <= RetryCount
    ensures r.acknowledged <==> r.attempts > i && StatusAt(writes, r.attempts - 1) == Success
    ensures forall j :: i <= j < r.attempts - 1 ==> StatusAt(writes, j) == Unreachable
    ensures !r.acknowledged && r.attempts < RetryCount ==> r.attempts > i && StatusAt(writes, r.attempts - 1) != Unreachable
    decreases RetryCount - i
  {
    if i == RetryCount then WriteResult(false, i)
    else
      match StatusAt(writes, i)
      case Success => WriteResult(true, i + 1)
      case Unreachable => WriteFrom(writes, i + 1)
      case ProtocolError => WriteResult(false, i + 1)
      case AccessDenied => WriteResult(false, i + 1)
  }

  /** What one power command did: its result, the bytes it wrote, the handles it left cached. */
  datatype Sent = Sent(result: Result<bool, DeviceFault>, written: seq<byte>, after: Handles)

  /**
   * PowerOnAsync, SleepAsync and StandbyAsync: Identify (whose result is ignored, but whose
   * exception propagates), then write the command's byte if the characteristic is now cached.
   */
  function SendSpec(h: Handles, command: PowerCommand, p: Probe, writes: seq<GattStatus>): Sent {
    var id := IdentifySpec(h, p);
    if id.result.Err? then Sent(Err(id.result.error), [], id.after)
    else if !id.after.characteristic then Sent(Err(NullCharacteristic), [], id.after)
    else
      var w := WriteFrom(writes, 0);
      Sent(Ok(w.acknowledged), seq(w.attempts, _ => Payload(command)), id.after)
  }

  /**
   * A power command writes only its own byte, at most five times and at least once when it
   * returns; it returns exactly when Identify does not throw and either finds a lighthouse
   * or the characteristic was cached before (Dispose keeps it), and it reports an
   * acknowledged write exactly when the last attempt was answered with Success.
   */
  lemma {:induction false} SendOnlyAfterLighthouse(h: Handles, command: PowerCommand, p: Probe, writes: seq<GattStatus>)
    ensures var s := SendSpec(h, command, p, writes);
      && (forall k :: 0 <= k < |s.written| ==> s.written[k] == Payload(command))
      && |s.written| <= RetryCount
      && (s.result.Ok? <==>
            IdentifySpec(h, p).result == Ok(Lighthouse) || (h.characteristic && IdentifySpec(h, p).result.Ok?))
      && (s.result.Ok? <==> s.written != [])
      && (s.result == Ok(true) <==> s.result.Ok? && StatusAt(writes, |s.written| - 1) == Success)
      && (s.result.Ok? ==> s.after.characteristic)
  {
    var id := IdentifySpec(h, p);
    LighthouseIffCached(h, p);
    IdentifyKeepsHandles(h, p);
    CharacteristicOnlyFromLighthouse(h, p);
    if id.result.Ok? && id.after.characteristic {
      var w := WriteFrom(writes, 0);
      assert w.attempts > 0;
    }
  }

  /** With service and characteristic cached, Identify answers Lighthouse without a single query. */
  lemma CachedHandlesNeedNoQuery(h: Handles, p: Probe)
    requires h.service && h.characteristic
    ensures IdentifySpec(h, p) == Identification(Ok(Lighthouse), h.(device := h.device || p.deviceFound), 0, 0)
  {
  }

  /** ProtocolError or AccessDenied from the service query ends Identify with NotLighthouse, with no further query. */
  lemma ServiceRefusalIsFinal(h: Handles, p: Probe)
    requires !h.service && (h.device || p.deviceFound) && Poll(p.services).Refused?
    ensures var id := IdentifySpec(h, p);
      id.result == Ok(NotLighthouse) && id.queries == Poll(p.services).attempts && !id.after.service
  {
  }

  /** The same for the characteristic query once the service is known. */
  lemma CharacteristicRefusalIsFinal(h: Handles, p: Probe)
    requires h.service && !h.characteristic && Poll(p.characteristics).Refused?
    ensures var id := IdentifySpec(h, p);
      id.result == Ok(NotLighthouse) && id.queries == Poll(p.characteristics).attempts && !id.after.characteristic
  {
  }

  /** Unknown comes only from a query stage whose five replies were all Unreachable. */
  lemma UnknownMeansUnreachable(h: Handles, p: Probe)
    ensures IdentifySpec(h, p).result == Ok(Unknown) ==>
      || (!h.service && forall j :: 0 <= j < RetryCount ==> ListingAt(p.services, j).status == Unreachable)
      || (!h.characteristic && forall j :: 0 <= j < RetryCount ==> ListingAt(p.characteristics, j).status == Unreachable)
  {
  }

  /** A Success reply that lacks the expected UUID makes the device NotLighthouse. */
  lemma MissingUuidIsNotLighthouse(h: Handles, p: Probe)
    requires !h.service && (h.device || p.deviceFound)
    requires Poll(p.services).Answered? && ControlService !in Poll(p.services).listing.uuids
    ensures IdentifySpec(h, p).result == Ok(NotLighthouse)
  {
  }

  /** Identify says Lighthouse exactly when it leaves both the service and the characteristic cached. */
  lemma {:induction false} LighthouseIffCached(h: Handles, p: Probe)
    ensures var id := IdentifySpec(h, p);
      id.result == Ok(Lighthouse) <==> id.after.service && id.after.characteristic
  {
    var h1 := h.(device := h.device || p.deviceFound);
    if h1.service {
      CharacteristicStageKeeps(h1, p, 0, 0);
    } else if h1.device {
      var poll := Poll(p.services);
      if poll.Answered? && ControlService in poll.listing.uuids {
        CharacteristicStageKeeps(h1.(service := true), p, PollAttempts(poll), PollPauses(poll));
      }
    }
  }

  lemma CharacteristicStageKeeps(h: Handles, p: Probe, queries: nat, pauses: nat)
    requires h.service
    ensures var id := CharacteristicStage(h, p, queries, pauses);
      && id.after.service && id.after.device == h.device
      && (id.result == Ok(Lighthouse) <==> id.after.characteristic)
      && (h.characteristic ==> id.after.characteristic)
  {
  }

  /** Identify caches the characteristic only when it answers Lighthouse. */
  lemma CharacteristicOnlyFromLighthouse(h: Handles, p: Probe)
    ensures var id := IdentifySpec(h, p);
      id.after.characteristic && !h.characteristic ==> id.result == Ok(Lighthouse)
  {
    var h1 := h.(device := h.device || p.deviceFound);
    if h1.service {
      CharacteristicStageKeeps(h1, p, 0, 0);
    } else if h1.device {
      var poll := Poll(p.services);
      if poll.Answered? && ControlService in poll.listing.uuids {
        CharacteristicStageKeeps(h1.(service := true), p, PollAttempts(poll), PollPauses(poll));
      }
    }
  }

  /** Identify only ever fills handles; it never drops one. */
  lemma IdentifyKeepsHandles(h: Handles, p: Probe)
    ensures var a := IdentifySpec(h, p).after;
      && a.device == (h.device || p.deviceFound)
      && (h.service ==> a.service)
      && (h.characteristic ==> a.characteristic)
  {
    var h1 := h.(device := h.device || p.deviceFound);
    if h1.service {
      CharacteristicStageKeeps(h1, p, 0, 0);
    } else if h1.device {
      var poll := Poll(p.services);
      if poll.Answered? && ControlService in poll.listing.uuids {
        CharacteristicStageKeeps(h1.(service := true), p, PollAttempts(poll), PollPauses(poll));
      }
    }
  }

  /**
   * At most five queries per stage, and never more pauses than queries: ten in all, and
   * five when either handle is already cached, since its stage is then skipped.
   */
  lemma IdentifyBounds(h: Handles, p: Probe)
    ensures var id := IdentifySpec(h, p);
      && id.queries <= 2 * RetryCount && id.pauses <= id.queries
      && (h.service || h.characteristic ==> id.queries <= RetryCount)
  {
  }

  /** The null-reference failure happens exactly when the service must be queried and there is no device. */
  lemma NullDeviceIff(h: Handles, p: Probe)
    ensures IdentifySpec(h, p).result == Err(NullDevice) <==> !h.service && !h.device && !p.deviceFound
  {
    var h1 := h.(device := h.device || p.deviceFound);
    if h1.service {
      CharacteristicStageKeeps(h1, p, 0, 0);
    }
  }

  /** A refusal on the first write ends the device-path write at once, unacknowledged. */
  lemma WriteRefusalIsFinal(writes: seq<GattStatus>)
    requires StatusAt(writes, 0) == ProtocolError || StatusAt(writes, 0) == AccessDenied
    ensures WriteFrom(writes, 0) == WriteResult(false, 1)
  {
  }

  /** Five Unreachable writes give up unacknowledged after five attempts. */
  lemma WriteGivesUpAfterFive(writes: seq<GattStatus>)
    requires forall j :: 0 <= j < RetryCount ==> StatusAt(writes, j) == Unreachable
    ensures WriteFrom(writes, 0) == WriteResult(false, RetryCount)
  {
    assert WriteFrom(writes, 4) == WriteResult(false, RetryCount);
  }

  class LighthouseDevice {
    const bluetoothAddress: ulong
    var hasDevice: bool
    var hasControlService: bool
    var hasPowerCharacteristic: bool
    /** How many times OnDisconnected has been raised. */
    ghost var disconnections: nat

    function Held(): Handles
      reads this
    {
      Handles(hasDevice, hasControlService, hasPowerCharacteristic)
    }

    /** IsInitialized: the power characteristic is cached. */
    predicate IsInitialized()
      reads this
    {
      hasPowerCharacteristic
    }

    /** FromBluetoothAddressAsync / FromIdAsync with a device the platform returned. */
    constructor(bluetoothAddress: ulong)
      ensures this.bluetoothAddress == bluetoothAddress
      ensures Held() == Handles(true, false, false) && disconnections == 0
    {
      this.bluetoothAddress := bluetoothAddress;
      hasDevice := true;
      hasControlService := false;
      hasPowerCharacteristic := false;
      disconnections := 0;
    }

    /** Dispose releases the device and the control service; the characteristic handle is kept. */
    method Dispose()
      modifies this
      ensures Held() == Handles(false, false, old(hasPowerCharacteristic))
      ensures disconnections == old(disconnections)
    {
      hasControlService := false;
      hasDevice := false;
    }

    /** A Disconnected status drops the service and characteristic and raises OnDisconnected. */
    method DeviceConnectionStatusChanged(status: ConnectionStatus)
      modifies this
      ensures status == Disconnected ==>
                Held() == Handles(old(hasDevice), false, false) && disconnections == old(disconnections) + 1
      ensures status != Disconnected ==> unchanged(this)
    {
      if status == Disconnected {
        hasControlService := false;
        hasPowerCharacteristic := false;
        disconnections := disconnections + 1;
      }
    }

    /** One query loop of Identify: stop on Success, give up on a refusal, retry Unreachable. */
    static method PollWithRetry(replies: seq<Listing>) returns (r: PollResult, pauses: nat)
      ensures r == Poll(replies) && pauses == PollPauses(r)
    {
      var result: Option<Listing> := None;
      pauses := 0;
      var i := 0;
      while i < RetryCount
        invariant 0 <= i <= RetryCount && pauses == i
        invariant PollFrom(replies, i) == Poll(replies)
        invariant i > 0 ==> result == Some(ListingAt(replies, i - 1)) && result.value.status == Unreachable
      {
        result := Some(ListingAt(replies, i));
        var shouldBreak := false;
        match result.value.status {
          case Success =>
            shouldBreak := true;
          case ProtocolError =>
            return Refused(ProtocolError, i + 1), pauses;
          case AccessDenied =>
            return Refused(AccessDenied, i + 1), pauses;
          case Unreachable =>
        }
        if shouldBreak {
          break;
        }
        pauses := pauses + 1;
        i := i + 1;
      }
      if result.Some? && result.value.status == Unreachable {
        r := Unanswered;
      } else {
        r := Answered(result.value, i + 1);
      }
    }

    /** Identify, proved against IdentifySpec. */
    method Identify(p: Probe) returns (id: Identification)
      modifies this
      ensures id == IdentifySpec(old(Held()), p)
      ensures Held() == id.after && disconnections == old(disconnections)
    {
      if !hasDevice {
        hasDevice := p.deviceFound;
      }
      var queries := 0;
      var pauses := 0;
      if !hasControlService {
        if !hasDevice {
          return Identification(Err(NullDevice), Held(), 0, 0);
        }
        var poll, waits := PollWithRetry(p.services);
        queries := PollAttempts(poll);
        pauses := waits;
        if poll.Refused? {
          return Identification(Ok(NotLighthouse), Held(), queries, pauses);
        }
        if poll.Unanswered? {
          return Identification(Ok(Unknown), Held(), queries, pauses);
        }
        hasControlService := ControlService in poll.listing.uuids;
        if !hasControlService {
          return Identification(Ok(NotLighthouse), Held(), queries, pauses);
        }
      }
      if !hasPowerCharacteristic {
        var poll, waits := PollWithRetry(p.characteristics);
        queries := queries + PollAttempts(poll);
        pauses := pauses + waits;
        if poll.Refused? {
          return Identification(Ok(NotLighthouse), Held(), queries, pauses);
        }
        if poll.Unanswered? {
          return Identification(Ok(Unknown), Held(), queries, pauses);
        }
        hasPowerCharacteristic := PowerCharacteristic in poll.listing.uuids;
        if !hasPowerCharacteristic {
          return Identification(Ok(NotLighthouse), Held(), queries, pauses);
        }
      }
      id := Identification(Ok(Lighthouse), Held(), queries, pauses);
    }

    /** The shared body of PowerOnAsync, SleepAsync and StandbyAsync. */
    method SendPowerCommand(command: PowerCommand, p: Probe, writes: seq<GattStatus>)
      returns (r: Result<bool, DeviceFault>, written: seq<byte>)
      modifies this
      ensures Sent(r, written, Held()) == SendSpec(old(Held()), command, p, writes)
      ensures disconnections == old(disconnections)
    {
      var id := Identify(p);
      if id.result.Err? {
        return Err(id.result.error), [];
      }
      if !hasPowerCharacteristic {
        return Err(NullCharacteristic), [];
      }
      var ok;
      ok, written := WriteCharacteristicAsync(Payload(command), writes);
      r := Ok(ok);
    }

    /** PowerOnAsync writes 0x01. */
    method PowerOnAsync(p: Probe, writes: seq<GattStatus>) returns (r: Result<bool, DeviceFault>, written: seq<byte>)
      modifies this
      ensures Sent(r, written, Held()) == SendSpec(old(Held()), PowerOn, p, writes)
      ensures disconnections == old(disconnections)
      ensures forall k :: 0 <= k < |written| ==> written[k] == 0x01
      ensures r.Ok? ==> IsInitialized()
    {
      r, written := SendPowerCommand(PowerOn, p, writes);
      SendOnlyAfterLighthouse(old(Held()), PowerOn, p, writes);
    }

    /** SleepAsync writes 0x00. */
    method SleepAsync(p: Probe, writes: seq<GattStatus>) returns (r: Result<bool, DeviceFault>, written: seq<byte>)
      modifies this
      ensures Sent(r, written, Held()) == SendSpec(old(Held()), Sleep, p, writes)
      ensures disconnections == old(disconnections)
      ensures forall k :: 0 <= k < |written| ==> written[k] == 0x00
      ensures r.Ok? ==> IsInitialized()
    {
      r, written := SendPowerCommand(Sleep, p, writes);
      SendOnlyAfterLighthouse(old(Held()), Sleep, p, writes);
    }

    /** StandbyAsync writes 0x02. */
    method StandbyAsync(p: Probe, writes: seq<GattStatus>) returns (r: Result<bool, DeviceFault>, written: seq<byte>)
      modifies this
      ensures Sent(r, written, Held()) == SendSpec(old(Held()), Standby, p, writes)
      ensures disconnections == old(disconnections)
      ensures forall k :: 0 <= k < |written| ==> written[k] == 0x02
      ensures r.Ok? ==> IsInitialized()
    {
      r, written := SendPowerCommand(Standby, p, writes);
      SendOnlyAfterLighthouse(old(Held()), Standby, p, writes);
    }

    /**
     * The device-path write loop. Every status returns or continues, so the pause at the
     * end of the loop body is never reached: retries follow each other without a delay.
     */
    static method WriteCharacteristicAsync(data: byte, writes: seq<GattStatus>) returns (ok: bool, written: seq<byte>)
      ensures var w := WriteFrom(writes, 0);
        ok == w.acknowledged && written == seq(w.attempts, _ => data)
    {
      written := [];
      var i := 0;
      while i < RetryCount
        invariant 0 <= i <= RetryCount
        invariant WriteFrom(writes, i) == WriteFrom(writes, 0)
        invariant written == seq(i, _ => data)
      {
        var result := StatusAt(writes, i);
        written := written + [data];
        match result {
          case Success =>
            return true, written;
          case Unreachable =>
            i := i + 1;
            continue;
          case ProtocolError =>
            return false, written;
          case AccessDenied =>
            return false, written;
        }
      }
      ok := false;
    }
  }
}
