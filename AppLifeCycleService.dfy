/**
 * AppLifeCycleService: automatic power management. When the VR monitor connects, every
 * managed base station is powered on; when the VR system quits, every managed base
 * station is put to sleep, the scan is stopped and the application exits. Both do
 * nothing while power management is switched off in the settings.
 */
module LifeCycle {
  import opened Wrappers
  import opened Framework
  import opened AddressCodec
  import Gatt
  import Lighthouses

  /** A device saved in the settings; its address is kept as text. */
  datatype ListItem = ListItem(name: string, bluetoothAddress: string, isManaged: bool)

  datatype Settings = Settings(powerManagement: bool, devices: seq<ListItem>)

  /** One power command handed to the GATT service. */
  datatype PowerRequest = PowerRequest(command: Gatt.PowerCommand, lighthouse: Lighthouses.Lighthouse)

  /**
   * What a handler does to the outside world, in order. The commands of one batch run
   * concurrently, so a batch is recorded as a multiset.
   */
  datatype LifecycleEffect =
    | ScanStarted
    | Issued(requests: multiset<PowerRequest>)
    | ScanStopped
    | ExitRequested

  /** The request for one saved device, when it takes part in a batch. */
  function RequestFor(command: Gatt.PowerCommand, d: ListItem): multiset<PowerRequest> {
    if d.isManaged && StringToAddress(d.bluetoothAddress).Ok?
    then multiset{PowerRequest(command, Lighthouses.Lighthouse(d.name, StringToAddress(d.bluetoothAddress).value, None))}
    else multiset{}
  }

  /**
   * The commands a batch sends: one per managed device whose address parses. A device
   * whose address does not parse faults its own task before it sends anything.
   */
  function Requests(command: Gatt.PowerCommand, devices: seq<ListItem>): multiset<PowerRequest> {
    if |devices| == 0 then multiset{}
    else Requests(command, devices[..|devices| - 1]) + RequestFor(command, devices[|devices| - 1])
  }

  /** The managed devices whose addresses parse. */
  function Powered(devices: seq<ListItem>): seq<ListItem> {
    if |devices| == 0 then []
    else
      var d := devices[|devices| - 1];
      Powered(devices[..|devices| - 1]) + (if d.isManaged && StringToAddress(d.bluetoothAddress).Ok? then [d] else [])
  }

  /** The exception awaiting the batch rethrows: the first managed device's parse error. */
  function FirstFault(devices: seq<ListItem>): Option<ParseError> {
    if |devices| == 0 then None
    else
      var d := devices[0];
      if d.isManaged && StringToAddress(d.bluetoothAddress).Err? then Some(StringToAddress(d.bluetoothAddress).error)
      else FirstFault(devices[1..])
  }

  /** Exactly one request per managed device with a parseable address, and no other. */
  lemma {:induction false} RequestsMatchPowered(command: Gatt.PowerCommand, devices: seq<ListItem>)
    ensures |Requests(command, devices)| == |Powered(devices)|
    ensures forall r :: r in Requests(command, devices) ==> r.command == command
    ensures forall d :: d in devices && d.isManaged && StringToAddress(d.bluetoothAddress).Ok? ==>
              PowerRequest(command, Lighthouses.Lighthouse(d.name, StringToAddress(d.bluetoothAddress).value, None))
                in Requests(command, devices)
  {
    if |devices| > 0 {
      var n := |devices| - 1;
      RequestsMatchPowered(command, devices[..n]);
      forall d | d in devices && d.isManaged && StringToAddress(d.bluetoothAddress).Ok?
        ensures PowerRequest(command, Lighthouses.Lighthouse(d.name, StringToAddress(d.bluetoothAddress).value, None))
                  in Requests(command, devices)
      {
        if d != devices[n] {
          assert d in devices[..n];
        }
      }
    }
  }

  lemma {:induction false} PoweredParses(devices: seq<ListItem>)
    ensures forall d :: d in Powered(devices) ==> d in devices && d.isManaged && StringToAddress(d.bluetoothAddress).Ok?
  {
    if |devices| > 0 {
      PoweredParses(devices[..|devices| - 1]);
      forall d | d in Powered(devices[..|devices| - 1])
        ensures d in devices
      {
        assert d in devices[..|devices| - 1];
      }
    }
  }

  /** Every managed device with a parseable address is in the batch, whatever the others hold. */
  lemma {:induction false} ManagedDevicesArePowered(devices: seq<ListItem>, d: ListItem)
    requires d in devices && d.isManaged && StringToAddress(d.bluetoothAddress).Ok?
    ensures d in Powered(devices)
  {
    var n := |devices| - 1;
    if devices[n] != d {
      assert d in devices[..n];
      ManagedDevicesArePowered(devices[..n], d);
    }
  }

  /** The batch faults exactly when some managed device's address does not parse. */
  lemma {:induction false} FaultIffBadAddress(devices: seq<ListItem>)
    ensures FirstFault(devices).None? <==>
              forall d :: d in devices && d.isManaged ==> StringToAddress(d.bluetoothAddress).Ok?
  {
    if |devices| > 0 {
      FaultIffBadAddress(devices[1..]);
      assert forall d :: d in devices <==> d == devices[0] || d in devices[1..];
    }
  }

  /** A sleep batch never asks for standby or power-on. */
  lemma {:induction false} QuitOnlySleeps(devices: seq<ListItem>)
    ensures forall r :: r in Requests(Gatt.Sleep, devices) ==> r.command == Gatt.Sleep
  {
    RequestsMatchPowered(Gatt.Sleep, devices);
  }

  class AppLifeCycleService {
    var effects: seq<LifecycleEffect>

    constructor()
      ensures effects == []
    {
      effects := [];
    }

    /**
     * Starts one task per managed device and collects them: the requests they send,
     * and the first fault among them.
     */
    static method StartAll(command: Gatt.PowerCommand, devices: seq<ListItem>)
      returns (requests: multiset<PowerRequest>, fault: Option<ParseError>)
      ensures requests == Requests(command, devices)
      ensures fault == FirstFault(devices)
    {
      requests := multiset{};
      fault := None;
      var i := 0;
      while i < |devices|
        invariant 0 <= i <= |devices|
        invariant requests == Requests(command, devices[..i])
        invariant FirstFault(devices) == if fault.Some? then fault else FirstFault(devices[i..])
      {
        var d := devices[i];
        assert devices[..i + 1][..i] == devices[..i];
        assert devices[i..][1..] == devices[i + 1..];
        if d.isManaged {
          var address := StringToAddress(d.bluetoothAddress);
          if address.Ok? {
            requests := requests + multiset{PowerRequest(command, Lighthouses.Lighthouse(d.name, address.value, None))};
          } else if fault.None? {
            fault := Some(address.error);
          }
        }
        i := i + 1;
      }
      assert devices[..i] == devices;
    }

    /**
     * The monitor-connected handler: start a scan when the scan command allows it, then
     * power on every managed device. A device whose address does not parse makes the
     * handler throw, after the others have been sent their commands.
     */
    method OnVRMonitorConnected(settings: Settings, scanCanExecute: bool) returns (r: Result<(), ParseError>)
      modifies this
      ensures !settings.powerManagement ==> r == Ok(()) && effects == old(effects)
      ensures settings.powerManagement ==>
                && effects == old(effects) + (if scanCanExecute then [ScanStarted] else [])
                                           + [Issued(Requests(Gatt.PowerOn, settings.devices))]
                && (r.Ok? <==> FirstFault(settings.devices).None?)
                && (r.Err? ==> r.error == FirstFault(settings.devices).value)
    {
      if !settings.powerManagement {
        return Ok(());
      }
      if scanCanExecute {
        effects := effects + [ScanStarted];
      }
      var requests, fault := StartAll(Gatt.PowerOn, settings.devices);
      effects := effects + [Issued(requests)];
      r := if fault.Some? then Err(fault.value) else Ok(());
    }

    /**
     * The VR-quit handler: start a scan when allowed, put every managed device to sleep,
     * then stop the scan and ask the application to exit. When a device's address does
     * not parse the handler throws before stopping the scan, so the application stays open.
     */
    method OnVRSystemQuit(settings: Settings, scanCanExecute: bool) returns (r: Result<(), ParseError>)
      modifies this
      ensures !settings.powerManagement ==> r == Ok(()) && effects == old(effects)
      ensures settings.powerManagement ==>
                var start := old(effects) + (if scanCanExecute then [ScanStarted] else [])
                                          + [Issued(Requests(Gatt.Sleep, settings.devices))];
                && (FirstFault(settings.devices).None? ==> r == Ok(()) && effects == start + [ScanStopped, ExitRequested])
                && (FirstFault(settings.devices).Some? ==> r == Err(FirstFault(settings.devices).value) && effects == start)
    {
      if !settings.powerManagement {
        return Ok(());
      }
      if scanCanExecute {
        effects := effects + [ScanStarted];
      }
      var requests, fault := StartAll(Gatt.Sleep, settings.devices);
      effects := effects + [Issued(requests)];
      if fault.Some? {
        return Err(fault.value);
      }
      effects := effects + [ScanStopped];
      effects := effects + [ExitRequested];
      r := Ok(());
    }

    /**
     * Launch: when the monitor is already connected the connected handler runs at once;
     * its exception is logged and swallowed.
     */
    method OnLaunch(monitorConnected: bool, settings: Settings, scanCanExecute: bool)
      modifies this
      ensures !monitorConnected || !settings.powerManagement ==> effects == old(effects)
      ensures monitorConnected && settings.powerManagement ==>
                effects == old(effects) + (if scanCanExecute then [ScanStarted] else [])
                                        + [Issued(Requests(Gatt.PowerOn, settings.devices))]
    {
      if monitorConnected {
        var ignored := OnVRMonitorConnected(settings, scanCanExecute);
      }
    }
  }
}
