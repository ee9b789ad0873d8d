/**
 * The UI commands that power base stations on and down: one command per device
 * (power on, sleep, standby) and the batch command that runs one of them for every
 * managed device in the list.
 */
module Commands {
  import opened Wrappers
  import opened Framework
  import Gatt
  import GattService
  import Lighthouses

  /** A row of the device list, as the commands receive it. */
  datatype DeviceEntry = DeviceEntry(name: string, bluetoothAddress: ulong, id: Option<string>, isManaged: bool)

  /** The Lighthouse record a command builds from a row before talking to the device. */
  function AsLighthouse(entry: DeviceEntry): (l: Lighthouses.Lighthouse)
    ensures l.name == entry.name && l.bluetoothAddress == entry.bluetoothAddress && l.id == entry.id
  {
    Lighthouses.Lighthouse(entry.name, entry.bluetoothAddress, entry.id)
  }

  /** What the notification service is asked to show. */
  datatype Notification =
    | Succeeded(command: Gatt.PowerCommand, name: string)      // Notification_PowerOn / _Sleep / _Standby
    | CommunicationError(name: string, failure: GattService.GattFailure)

  /** The notification service: it keeps what it was asked to show, in order. */
  class Notifier {
    var shown: seq<Notification>

    constructor()
      ensures shown == []
    {
      shown := [];
    }

    method Show(n: Notification)
      modifies this
      ensures shown == old(shown) + [n]
    {
      shown := shown + [n];
    }
  }

  /** What a command throws to its caller. */
  datatype CommandFault =
    | InvalidParameter   // ArgumentException "Invalid parameter"
    | NullReference      // a null parameter dereferenced

  /** The command's `_task` field: no task, or a task that ended by throwing and stays completed. */
  datatype TaskState = NoTask | Faulted

  /** The one-line notification for one command's exchange with a device. */
  function Report(command: Gatt.PowerCommand, entry: DeviceEntry, e: GattService.Exchange): (n: Notification)
    ensures e.outcome.Ok? <==> n.Succeeded?
    ensures n.Succeeded? ==> n == Succeeded(command, entry.name)
    ensures e.outcome.Err? ==> n == CommunicationError(entry.name, e.outcome.error)
  {
    if e.outcome.Ok? then Succeeded(command, entry.name) else CommunicationError(entry.name, e.outcome.error)
  }

  /**
   * PowerOnCommand, SleepCommand and StandbyCommand: one class per command in the
   * original, identical but for the GATT call and for StandbyCommand refusing V1 rows.
   */
  class DeviceCommand {
    const command: Gatt.PowerCommand
    var task: TaskState

    constructor(command: Gatt.PowerCommand)
      ensures this.command == command && task == NoTask
    {
      this.command := command;
      task := NoTask;
    }

    /**
     * Runnable when no task is pending (between calls a task is always completed);
     * the standby command never runs for a first-generation base station.
     */
    function CanExecute(parameter: Option<DeviceEntry>): (r: bool)
      reads this
      ensures r <==> !(command == Gatt.Standby && parameter.Some?
                       && Lighthouses.Lighthouse(parameter.value.name, 0, None).Version() == Lighthouses.V1)
    {
      var isV1 := command == Gatt.Standby && parameter.Some?
                  && Lighthouses.Lighthouse(parameter.value.name, 0, None).Version() == Lighthouses.V1;
      if isV1 then false else task == NoTask || task == Faulted
    }

    /**
     * Sends the command to the row's device. A parameter that is not a row throws; a
     * failed exchange is caught and reported, and its faulted task is kept.
     */
    method ExecuteAsync(parameter: Option<DeviceEntry>, gatt: GattService.LighthouseGattService,
                        t: GattService.Transport, notifier: Notifier)
      returns (r: Result<GattService.Exchange, CommandFault>)
      requires gatt.discovery.Valid()
      modifies this, gatt.discovery, notifier
      ensures gatt.discovery.Valid()
      ensures parameter.None? ==>
                && r == Err(InvalidParameter) && task == old(task) && notifier.shown == old(notifier.shown)
                && gatt.discovery.isDiscovering == old(gatt.discovery.isDiscovering)
                && gatt.discovery.foundLighthouses == old(gatt.discovery.foundLighthouses)
      ensures parameter.Some? ==>
                var e := GattService.WriteExchange(t, Gatt.Payload(command));
                && r == Ok(e)
                && notifier.shown == old(notifier.shown) + [Report(command, parameter.value, e)]
                && task == (if e.outcome.Ok? then NoTask else Faulted)
      ensures gatt.discovery.found == old(gatt.discovery.found)
      ensures parameter.Some? ==>
                gatt.DiscoveryNudged(old(gatt.discovery.isDiscovering), old(gatt.discovery.foundLighthouses),
                                     old(gatt.discovery.found), r.value.lookups, r.value.outcome)
    {
      if parameter.None? {
        return Err(InvalidParameter);
      }
      var entry := parameter.value;
      var lighthouse := AsLighthouse(entry);
      var e: GattService.Exchange;
      match command {
        case PowerOn => e := gatt.PowerOnAsync(lighthouse, t);
        case Sleep => e := gatt.SleepAsync(lighthouse, t);
        case Standby => e := gatt.StandbyAsync(lighthouse, t);
      }
      if e.outcome.Ok? {
        task := NoTask;
        notifier.Show(Succeeded(command, entry.name));
      } else {
        task := Faulted;
        notifier.Show(CommunicationError(entry.name, e.outcome.error));
      }
      r := Ok(e);
    }
  }

  /** PowerAllCommandOperation. */
  datatype Operation = NoOperation | PowerOn | PowerDown   // None, PowerOn, PowerDown

  /** The power-down mode chosen in the settings. */
  datatype PowerDownMode = Sleep | Standby

  datatype PowerAllParameter = PowerAllParameter(command: string, lighthouses: seq<DeviceEntry>)

  /** The batch operation named by the parameter's command text. */
  function OperationFor(command: string): (op: Operation)
    ensures op == PowerOn <==> command == "powerOn"
    ensures op == PowerDown <==> command == "powerDown"
  {
    if command == "powerOn" then PowerOn
    else if command == "powerDown" then PowerDown
    else NoOperation
  }

  /** One command the batch runs, and the row it runs for. */
  datatype Request = Request(command: Gatt.PowerCommand, entry: DeviceEntry)

  /**
   * The command sent to one row: power on, or for a power-down sleep when the settings
   * say so or when the base station is first-generation (it has no standby), else standby.
   */
  function CommandFor(op: Operation, mode: PowerDownMode, entry: DeviceEntry): Gatt.PowerCommand
    requires op != NoOperation
  {
    if op == PowerOn then Gatt.PowerOn
    else if mode == Sleep || AsLighthouse(entry).Version() == Lighthouses.V1 then Gatt.Sleep
    else Gatt.Standby
  }

  /** The managed rows, in list order. */
  function Managed(entries: seq<DeviceEntry>): (r: seq<DeviceEntry>)
    ensures |r| <= |entries|
    ensures forall e :: e in r ==> e in entries && e.isManaged
    ensures forall e :: e in entries && e.isManaged ==> e in r
  {
    if |entries| == 0 then []
    else Managed(entries[..|entries| - 1]) + (if entries[|entries| - 1].isManaged then [entries[|entries| - 1]] else [])
  }

  /** The commands a batch sends, in order. */
  function BatchPlan(op: Operation, mode: PowerDownMode, entries: seq<DeviceEntry>): seq<Request> {
    if |entries| == 0 || op == NoOperation then []
    else
      var last := entries[|entries| - 1];
      BatchPlan(op, mode, entries[..|entries| - 1])
        + (if last.isManaged then [Request(CommandFor(op, mode, last), last)] else [])
  }

  /** The notifications a batch shows: the k-th command uses the k-th script. */
  function BatchReports(plan: seq<Request>, scripts: seq<GattService.Transport>): seq<Notification> {
    if |plan| == 0 then []
    else
      var k := |plan| - 1;
      BatchReports(plan[..k], scripts)
        + [Report(plan[k].command, plan[k].entry, GattService.WriteExchange(ScriptAt(scripts, k), Gatt.Payload(plan[k].command)))]
  }

  lemma BatchPlanStep(op: Operation, mode: PowerDownMode, entries: seq<DeviceEntry>, i: nat)
    requires i < |entries|
    ensures BatchPlan(op, mode, entries[..i + 1]) ==
              BatchPlan(op, mode, entries[..i])
                + (if op != NoOperation && entries[i].isManaged then [Request(CommandFor(op, mode, entries[i]), entries[i])] else [])
  {
    assert entries[..i + 1][..i] == entries[..i];
  }

  lemma BatchReportsStep(plan: seq<Request>, request: Request, scripts: seq<GattService.Transport>)
    ensures BatchReports(plan + [request], scripts) ==
              BatchReports(plan, scripts)
                + [Report(request.command, request.entry,
                          GattService.WriteExchange(ScriptAt(scripts, |plan|), Gatt.Payload(request.command)))]
  {
    assert (plan + [request])[..|plan|] == plan;
  }

  /** The platform's script for the k-th command; past the end, a device that never answers. */
  function ScriptAt(scripts: seq<GattService.Transport>, k: nat): GattService.Transport {
    if k < |scripts| then scripts[k] else GattService.Transport([], [], [], [])
  }

  /** A batch sends exactly one command to every managed row, in list order, and nothing else. */
  lemma {:induction false} BatchCoversManaged(op: Operation, mode: PowerDownMode, entries: seq<DeviceEntry>)
    requires op != NoOperation
    ensures var plan := BatchPlan(op, mode, entries);
      && |plan| == |Managed(entries)|
      && forall i :: 0 <= i < |plan| ==> plan[i].entry == Managed(entries)[i]
                                         && plan[i].command == CommandFor(op, mode, plan[i].entry)
  {
    if |entries| > 0 {
      BatchCoversManaged(op, mode, entries[..|entries| - 1]);
    }
  }

  /** Unmanaged rows are never touched, and an unknown command text sends nothing. */
  lemma {:induction false} BatchOnlyManaged(op: Operation, mode: PowerDownMode, entries: seq<DeviceEntry>)
    ensures forall r :: r in BatchPlan(op, mode, entries) ==> r.entry.isManaged && r.entry in entries
    ensures op == NoOperation ==> BatchPlan(op, mode, entries) == []
  {
    if |entries| > 0 && op != NoOperation {
      BatchOnlyManaged(op, mode, entries[..|entries| - 1]);
      forall r | r in BatchPlan(op, mode, entries)
        ensures r.entry.isManaged && r.entry in entries
      {
        if r in BatchPlan(op, mode, entries[..|entries| - 1]) {
          assert r.entry in entries[..|entries| - 1];
        }
      }
    }
  }

  /**
   * Which command each row gets: power on only for a power-on batch; for a power-down
   * batch sleep exactly when the mode is Sleep or the row is first-generation, else
   * standby.
   */
  lemma CommandChoice(op: Operation, mode: PowerDownMode, entry: DeviceEntry)
    requires op != NoOperation
    ensures CommandFor(op, mode, entry) == Gatt.PowerOn <==> op == PowerOn
    ensures op == PowerDown ==>
              (CommandFor(op, mode, entry) == Gatt.Sleep <==>
                 mode == Sleep || StartsWith(entry.name, Lighthouses.V1Prefix))
    ensures op == PowerDown && mode == Standby && StartsWith(entry.name, Lighthouses.V2Prefix) ==>
              CommandFor(op, mode, entry) == Gatt.Standby
  {
    Lighthouses.PrefixesExclusive(entry.name);
  }

  /**
   * What a batch may do to the discovery service: a failed lookup can start it (clearing
   * its map if it was stopped), but nothing stops it and no device is recorded.
   */
  ghost predicate DiscoveryKept(gatt: GattService.LighthouseGattService, wasDiscovering: bool,
                                wasFound: map<string, Lighthouses.Lighthouse>, wasEvents: seq<Lighthouses.Lighthouse>)
    reads gatt.discovery
  {
    && gatt.discovery.found == wasEvents
    && (wasDiscovering ==> gatt.discovery.isDiscovering)
    && (gatt.discovery.foundLighthouses == wasFound || gatt.discovery.foundLighthouses == map[])
    && (wasDiscovering || !gatt.discovery.isDiscovering ==> gatt.discovery.foundLighthouses == wasFound)
  }

  class PowerAllCommand {
    var operation: Operation

    constructor()
      ensures operation == NoOperation
    {
      operation := NoOperation;
    }

    /**
     * Runnable when no batch is running and some row is managed. A parameter of the
     * wrong type becomes null, which is only dereferenced when no batch is running.
     */
    function CanExecute(parameter: Option<PowerAllParameter>): (r: Result<bool, CommandFault>)
      reads this
      ensures operation != NoOperation ==> r == Ok(false)
      ensures operation == NoOperation && parameter.None? ==> r == Err(NullReference)
      ensures operation == NoOperation && parameter.Some? ==>
                r == Ok(exists e :: e in parameter.value.lighthouses && e.isManaged)
    {
      if operation != NoOperation then Ok(false)
      else if parameter.None? then Err(NullReference)
      else Ok(exists e :: e in parameter.value.lighthouses && e.isManaged)
    }

    /**
     * Runs the batch: one fresh single-device command per managed row, in order, each
     * with its own script from the platform. A single command's failure is reported
     * and does not stop the batch. Whatever happens, no batch is running afterwards.
     */
    method ExecuteAsync(parameter: Option<PowerAllParameter>, mode: PowerDownMode,
                        gatt: GattService.LighthouseGattService, scripts: seq<GattService.Transport>,
                        notifier: Notifier)
      returns (r: Result<seq<Request>, CommandFault>)
      requires gatt.discovery.Valid()
      modifies this, gatt.discovery, notifier
      ensures gatt.discovery.Valid() && operation == NoOperation
      ensures parameter.None? ==> r == Err(NullReference) && notifier.shown == old(notifier.shown)
      ensures parameter.Some? ==>
                var plan := BatchPlan(OperationFor(parameter.value.command), mode, parameter.value.lighthouses);
                && r == Ok(plan)
                && notifier.shown == old(notifier.shown) + BatchReports(plan, scripts)
      ensures DiscoveryKept(gatt, old(gatt.discovery.isDiscovering), old(gatt.discovery.foundLighthouses),
                            old(gatt.discovery.found))
    {
      if parameter.None? {
        operation := NoOperation;
        return Err(NullReference);
      }
      var param := parameter.value;
      operation := OperationFor(param.command);
      var entries := param.lighthouses;
      var issued: seq<Request> := [];
      var i := 0;
      while i < |entries|
        invariant 0 <= i <= |entries|
        invariant operation == OperationFor(param.command)
        invariant issued == BatchPlan(operation, mode, entries[..i])
        invariant notifier.shown == old(notifier.shown) + BatchReports(issued, scripts)
        invariant gatt.discovery.Valid()
        invariant DiscoveryKept(gatt, old(gatt.discovery.isDiscovering), old(gatt.discovery.foundLighthouses),
                                old(gatt.discovery.found))
      {
        var entry := entries[i];
        BatchPlanStep(operation, mode, entries, i);
        if operation == NoOperation || !entry.isManaged {
          i := i + 1;
          continue;
        }
        var command := CommandFor(operation, mode, entry);
        var single := new DeviceCommand(command);
        var k := |issued|;
        var res := single.ExecuteAsync(Some(entry), gatt, ScriptAt(scripts, k), notifier);
        BatchReportsStep(issued, Request(command, entry), scripts);
        issued := issued + [Request(command, entry)];
        i := i + 1;
      }
      assert entries[..i] == entries;
      operation := NoOperation;
      r := Ok(issued);
    }
  }
}
