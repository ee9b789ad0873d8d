/**
 * The Bluetooth Low Energy GATT vocabulary both command paths share: the status of a
 * GATT exchange, the base station's control service and power characteristic, the
 * retry budget, and the one-byte power payloads.
 *
 * The platform's answers are scripted: attempt i reads entry i of a sequence, and a
 * script shorter than the retry budget answers the missing attempts with Unreachable
 * (or "no device" for a device lookup).
 */
module Gatt {
  import opened Framework

  /** GattCommunicationStatus, which has exactly these four members. */
  datatype GattStatus = Success | Unreachable | ProtocolError | AccessDenied

  type Uuid = string

  /** The base station's power-control service. */
  const ControlService: Uuid := "00001523-1212-efde-1523-785feabcd124"

  /** The characteristic inside it that takes the one-byte power command. */
  const PowerCharacteristic: Uuid := "00001525-1212-efde-1523-785feabcd124"

  /** Every retry loop makes at most this many attempts. */
  const RetryCount: nat := 5

  /** The answer to a service or characteristic query: a status and the UUIDs returned. */
  datatype Listing = Listing(status: GattStatus, uuids: seq<Uuid>)

  /** The answer to attempt i of a device lookup: was a device object returned? */
  function FoundAt(script: seq<bool>, i: nat): bool {
    if i < |script| then script[i] else false
  }

  /** The answer to attempt i of a service or characteristic query. */
  function ListingAt(script: seq<Listing>, i: nat): Listing {
    if i < |script| then script[i] else Listing(Unreachable, [])
  }

  /** The status of attempt i of a write. */
  function StatusAt(script: seq<GattStatus>, i: nat): GattStatus {
    if i < |script| then script[i] else Unreachable
  }

  /** The three power commands a base station accepts. */
  datatype PowerCommand = PowerOn | Sleep | Standby

  /** The single byte written to the power characteristic for each command. */
  function Payload(command: PowerCommand): (data: byte)
    ensures command == PowerOn <==> data == 0x01
    ensures command == Sleep <==> data == 0x00
    ensures command == Standby <==> data == 0x02
  {
    match command
    case PowerOn => 0x01
    case Sleep => 0x00
    case Standby => 0x02
  }

  /** Different commands put different bytes on the air. */
  lemma PayloadInjective(c: PowerCommand, d: PowerCommand)
    requires Payload(c) == Payload(d)
    ensures c == d
  {
  }

  /** The two UUIDs differ, so the characteristic is never mistaken for the service. */
  lemma UuidsDistinct()
    ensures ControlService != PowerCharacteristic
  {
    assert ControlService[7] != PowerCharacteristic[7];
  }
}
