# OVR Lighthouse Manager — a verified model of the core

OVR Lighthouse Manager powers SteamVR base stations ("lighthouses") on and off over
Bluetooth Low Energy. This project models the core of the application in Dafny:

* the address codec: a 64-bit Bluetooth address and its text form `AA:BB:CC:DD:EE:FF`,
  including .NET's `Convert.ToUInt64(s, 16)` rules (`AddressToStringConverter.dfy`,
  `Framework.dfy`);
* the `Lighthouse` record and its generation, read off the name (`Lighthouse.dfy`);
* the version helper and the boolean-to-visibility converter (`VersionHelper.dfy`,
  `BooleanToVisibilityConverter.dfy`);
* the GATT service: device lookup, control-service and power-characteristic queries and
  the one-byte write, each retried five times, with the discovery service nudged on
  every failed lookup (`Gatt.dfy`, `LighthouseGattService.dfy`,
  `LighthouseDiscoveryService.dfy`);
* the older per-device path, `LighthouseDevice`: cached handles, `Identify`, and its own
  write loop (`LighthouseDevice.dfy`);
* the scanner, `LighthouseService`: watcher handlers, the known-device registry and the
  identification of possible lighthouses (`LighthouseService.dfy`). The service is built
  with a `Registration`: `AsWritten` adds an entry to the registry on every
  identification, as the program does; `ListedOnce` is the correction described under
  "Findings";
* the UI commands: power on, sleep, standby, and the batch command (`LighthouseCommands.dfy`);
* automatic power management when the VR monitor connects and when the VR system quits
  (`AppLifeCycleService.dfy`).

The Windows Bluetooth stack is replaced by scripts. Attempt *i* of a retry loop reads
entry *i* of a sequence of platform answers. A script shorter than the five-attempt budget
answers the missing attempts with "no device" or `Unreachable`. Pauses are counted, not
timed. Objects whose fields the application updates are classes: `LighthouseDevice`,
`KnownDevice`, `LighthouseService`, the discovery service, the commands and the lifecycle
service. Each retry loop is a method proved equal to a specification function. The
properties are proved about those functions.

## Model

| member | source | states |
|---|---|---|
| AddressCodec.AddressToString | OVRLighthouseManager/Helpers/AddressToStringConverter.cs:33-48 | an even-length "X012" text is cut into digit pairs joined by ':'; an odd-length text (an integer of 2^48 or more with 13 or 15 digits) throws because the last slice runs past the end |
| AddressCodec.AddressTextIsCanonical | OVRLighthouseManager/Helpers/AddressToStringConverter.cs:33-48 | every address below 2^48 formats to exactly twelve zero-padded upper-case digits and the 17-character `XX:XX:XX:XX:XX:XX` form |
| AddressCodec.ColonizeShape | OVRLighthouseManager/Helpers/AddressToStringConverter.cs:39-46 | 2m digits give 3m-1 characters with a colon exactly at every third place and a digit everywhere else |
| AddressCodec.AddressRoundTrip | OVRLighthouseManager/Helpers/AddressToStringConverter.cs:33-54 | whenever AddressToString succeeds, StringToAddress reads its text back as the same integer |
| AddressCodec.BluetoothAddressRoundTrip | OVRLighthouseManager/Helpers/AddressToStringConverter.cs:33-54 | for every address below 2^48, formatting then parsing gives back the address |
| AddressCodec.CanonicalRoundTrip | OVRLighthouseManager/Helpers/AddressToStringConverter.cs:33-54 | a canonical text parses to an address below 2^48 that formats back to the same text (the other direction of the round trip) |
| AddressCodec.ColonsAreIgnored | OVRLighthouseManager/Helpers/AddressToStringConverter.cs:50-54 | a colon anywhere in the text does not change the parsed value |
| AddressCodec.BareFormAgrees | OVRLighthouseManager/Helpers/AddressToStringConverter.cs:50-54 | the text without colons parses exactly like the text with them |
| AddressCodec.EmptyTextRejected | OVRLighthouseManager/Helpers/AddressToStringConverter.cs:50-54 | text with nothing but colons throws ArgumentOutOfRange |
| AddressCodec.NonHexRejected | OVRLighthouseManager/Helpers/AddressToStringConverter.cs:50-54 | a character that is neither a hex digit nor part of the optional sign or "0x" prefix makes parsing throw |
| AddressCodec.TooManyDigitsRejected | OVRLighthouseManager/Helpers/AddressToStringConverter.cs:50-54 | digits worth 2^64 or more throw an overflow |
| AddressCodec.DigitsAccepted | OVRLighthouseManager/Helpers/AddressToStringConverter.cs:50-54 | any non-empty run of hex digits below 2^64 parses to its value |
| AddressCodec.Convert | OVRLighthouseManager/Helpers/AddressToStringConverter.cs:14-21 | a non-ulong value throws ArgumentException; an address below 2^48 gives the canonical text; an address with an even number of hex digits gives its colon-separated text and one with an odd number throws ArgumentOutOfRangeException; any text it returns parses back to the value |
| AddressCodec.ConvertBack | OVRLighthouseManager/Helpers/AddressToStringConverter.cs:23-31 | the converter parses its parameter, not its value; a non-string parameter throws; otherwise it succeeds exactly when StringToAddress does, with the same value |
| Lighthouses.Lighthouse.Version | OVRLighthouseManager/Models/Lighthouse.cs:24-38 | V1 exactly for an "HTC BS" name, V2 exactly for an "LHB-" name, Unknown exactly for neither |
| Lighthouses.PrefixesExclusive | OVRLighthouseManager/Models/Lighthouse.cs:24-38 | no name carries both prefixes, so the order of the two tests does not matter |
| Lighthouses.DefaultIsUnknown | OVRLighthouseManager/Models/Lighthouse.cs:10-22 | a default-constructed Lighthouse has an empty name and Unknown version |
| Lighthouses.VersionIgnoresAddressAndId | OVRLighthouseManager/Models/Lighthouse.cs:24-38 | the version depends on the name alone |
| Lighthouses.RenameReclassifies | OVRLighthouseManager/Models/Lighthouse.cs:24-38 | the version is recomputed from the current name on every read |
| VersionHelper.GetInformationalVersion | OVRLighthouseManager/Helpers/VersionHelper.cs:6-10 | the attribute's text, or "Unknown" when the attribute is missing |
| VersionHelper.GetVersion | OVRLighthouseManager/Helpers/VersionHelper.cs:12-16 | the prefix of the informational version before its first '+', containing no '+' |
| VersionHelper.GetCommit | OVRLighthouseManager/Helpers/VersionHelper.cs:18-27 | null exactly when there is no '+'; otherwise the text between the first '+' and the next '+' or the end |
| VersionHelper.NoPlusNoCommit | OVRLighthouseManager/Helpers/VersionHelper.cs:12-27 | without a '+' the version is the whole string and there is no commit |
| VersionHelper.OnePlusReconstructs | OVRLighthouseManager/Helpers/VersionHelper.cs:12-27 | for "version+commit" the two helpers return the two parts, which put the string back together |
| VersionHelper.MissingAttribute | OVRLighthouseManager/Helpers/VersionHelper.cs:6-27 | without the attribute the version is "Unknown" and there is no commit |
| BooleanVisibility.Convert | OVRLighthouseManager/Helpers/BooleanToVisibilityConverter.cs:8-19 | a non-bool value throws; a parameter that bool.Parse rejects throws; otherwise Visible exactly when the value differs from the parsed parameter |
| BooleanVisibility.ConvertBack | OVRLighthouseManager/Helpers/BooleanToVisibilityConverter.cs:21-32 | a non-Visibility value throws; otherwise true exactly when "is Visible" differs from the parsed parameter |
| BooleanVisibility.PlainMapping | OVRLighthouseManager/Helpers/BooleanToVisibilityConverter.cs:8-32 | without a string parameter true shows, false collapses, and back |
| BooleanVisibility.ParameterInverts | OVRLighthouseManager/Helpers/BooleanToVisibilityConverter.cs:12-15 | a parameter parsing as true swaps the mapping; one parsing as false leaves it alone |
| BooleanVisibility.ConvertRoundTrip | OVRLighthouseManager/Helpers/BooleanToVisibilityConverter.cs:8-32 | ConvertBack after Convert under the same parameter gives back the boolean |
| BooleanVisibility.ConvertBackRoundTrip | OVRLighthouseManager/Helpers/BooleanToVisibilityConverter.cs:8-32 | Convert after ConvertBack under the same parameter gives back the visibility |
| BooleanVisibility.BadParameterThrows | OVRLighthouseManager/Helpers/BooleanToVisibilityConverter.cs:12-15 | a string parameter that is not a boolean literal makes both directions throw |
| BooleanVisibility.ParameterLiterals | OVRLighthouseManager/Helpers/BooleanToVisibilityConverter.cs:12-15 | bool.Parse accepts "True" and " false " and rejects "yes" |
| Gatt.Payload | OVRLighthouseManager/Services/LighthouseGattService.cs:25-38 | power on writes 0x01, sleep 0x00 and standby 0x02, each exactly |
| Gatt.PayloadInjective | OVRLighthouseManager/Services/LighthouseGattService.cs:25-38 | different commands write different bytes |
| Gatt.UuidsDistinct | OVRLighthouseManager/Services/LighthouseGattService.cs:14-15 | the control service and power characteristic UUIDs differ |
| GattService.LighthouseGattService.PowerOnAsync | OVRLighthouseManager/Services/LighthouseGattService.cs:25-28 | the exchange is the four-step write of 0x01; discovery is nudged once per failed lookup |
| GattService.LighthouseGattService.SleepAsync | OVRLighthouseManager/Services/LighthouseGattService.cs:30-33 | the exchange is the four-step write of 0x00 |
| GattService.LighthouseGattService.StandbyAsync | OVRLighthouseManager/Services/LighthouseGattService.cs:35-38 | the exchange is the four-step write of 0x02 |
| GattService.LighthouseGattService.WritePowerCharacteristic | OVRLighthouseManager/Services/LighthouseGattService.cs:40-46 | device, service, characteristic and write run in order; the first failing step ends the command; the result equals WriteExchange |
| GattService.LighthouseGattService.GetBluetoothLEDeviceAsync | OVRLighthouseManager/Services/LighthouseGattService.cs:48-62 | the first of five lookups that returns a device, or "Lighthouse not found"; each failed lookup starts discovery and pauses once |
| GattService.LighthouseGattService.GetControlService | OVRLighthouseManager/Services/LighthouseGattService.cs:64-90 | the first of five queries answering Success with a non-empty list, or a plain Exception after five; one pause per failed query |
| GattService.LighthouseGattService.GetPowerCharacteristic | OVRLighthouseManager/Services/LighthouseGattService.cs:92-118 | as for the service, for the power characteristic, failing with a LighthouseGattException |
| GattService.LighthouseGattService.WriteCharacteristicAsync | OVRLighthouseManager/Services/LighthouseGattService.cs:120-140 | up to five writes of the byte; the first Success ends the step; every other status is retried after a pause |
| GattService.AttemptBounds | OVRLighthouseManager/Services/LighthouseGattService.cs:48-140 | no step makes more than five attempts |
| GattService.StepsInOrder | OVRLighthouseManager/Services/LighthouseGattService.cs:40-46 | a failing step leaves every later step unattempted |
| GattService.OnlyPayloadWritten | OVRLighthouseManager/Services/LighthouseGattService.cs:120-140 | only the command's byte is written, and success means the last write was acknowledged |
| GattService.PausesCountFailures | OVRLighthouseManager/Services/LighthouseGattService.cs:48-140 | there is one pause per failed attempt across all four steps |
| GattService.FailureCarriesLastStatus | OVRLighthouseManager/Services/LighthouseGattService.cs:64-140 | a failing step reports the status of its fifth attempt |
| GattService.EmptyServiceListsFail | OVRLighthouseManager/Services/LighthouseGattService.cs:64-90 | Success with an empty service list every time still fails the service step |
| GattService.LastChanceSucceeds | OVRLighthouseManager/Services/LighthouseGattService.cs:64-90 | refusals do not end a step early, so success on the fifth attempt still counts |
| GattService.SuccessNeedsEveryStep | OVRLighthouseManager/Services/LighthouseGattService.cs:40-140 | a command succeeds exactly when each of the four steps has an accepted attempt within its budget |
| Discovery.LighthouseNames | OVRLighthouseManager/Services/LighthouseDiscoveryService.cs:75 | a name is a base station's exactly when it carries the V1 or the V2 prefix |
| Discovery.LighthouseDiscoveryService.StartDiscovery | OVRLighthouseManager/Services/LighthouseDiscoveryService.cs:53-63 | a no-op while discovering; otherwise a new session with an empty map |
| Discovery.LighthouseDiscoveryService.StopDiscovery | OVRLighthouseManager/Services/LighthouseDiscoveryService.cs:65-70 | clears the flag and keeps what was found |
| Discovery.LighthouseDiscoveryService.EnumerationCompleted | OVRLighthouseManager/Services/LighthouseDiscoveryService.cs:36-40 | the end of an enumeration stops discovery |
| Discovery.LighthouseDiscoveryService.DeviceWatcherAdded | OVRLighthouseManager/Services/LighthouseDiscoveryService.cs:72-89 | non-lighthouse names, ids already recorded and null devices are skipped; otherwise the lighthouse is recorded under its id and Found fires once; the map holds each id of the session once |
| Discovery.RecordKeepsSession | OVRLighthouseManager/Services/LighthouseDiscoveryService.cs:76-88 | recording a new id with its Found event keeps every id once in the map and the events in recording order |
| Discovery.BluetoothAddressesFormat | OVRLighthouseManager/Services/LighthouseDiscoveryService.cs:84-87 | every address below 2^48 formats without throwing, so such a device is always recorded |
| Devices.PollFrom | OVRLighthouseManager/Models/LighthouseDevice.cs:71-106 | a query loop stops on the first Success or refusal and retries only Unreachable, at most five times |
| Devices.WriteFrom | OVRLighthouseManager/Models/LighthouseDevice.cs:180-201 | the device write stops on Success or a refusal and retries only Unreachable; acknowledged exactly when the last attempt succeeded |
| Devices.CachedHandlesNeedNoQuery | OVRLighthouseManager/Models/LighthouseDevice.cs:71-144 | with service and characteristic cached, Identify answers Lighthouse without a query |
| Devices.ServiceRefusalIsFinal | OVRLighthouseManager/Models/LighthouseDevice.cs:83-86 | ProtocolError or AccessDenied on the service query answers NotLighthouse and queries nothing more |
| Devices.CharacteristicRefusalIsFinal | OVRLighthouseManager/Models/LighthouseDevice.cs:120-123 | the same for the characteristic query |
| Devices.UnknownMeansUnreachable | OVRLighthouseManager/Models/LighthouseDevice.cs:97-100 | Unknown comes only from a stage whose five replies were all Unreachable |
| Devices.MissingUuidIsNotLighthouse | OVRLighthouseManager/Models/LighthouseDevice.cs:101-105 | Success without the control-service UUID answers NotLighthouse |
| Devices.LighthouseIffCached | OVRLighthouseManager/Models/LighthouseDevice.cs:63-147 | Identify answers Lighthouse exactly when both the service and the characteristic end up cached |
| Devices.IdentifyKeepsHandles | OVRLighthouseManager/Models/LighthouseDevice.cs:63-147 | Identify only fills handles and never drops one |
| Devices.IdentifyBounds | OVRLighthouseManager/Models/LighthouseDevice.cs:63-147 | at most ten queries in all, at most five when either handle is already cached (its stage is then skipped), and never more pauses than queries |
| Devices.CharacteristicOnlyFromLighthouse | OVRLighthouseManager/Models/LighthouseDevice.cs:108-144 | Identify caches the power characteristic only on the path that answers Lighthouse |
| Devices.SendOnlyAfterLighthouse | OVRLighthouseManager/Models/LighthouseDevice.cs:149-201 | a power command writes only its own byte, at most five times; it returns (and then has written at least once) exactly when Identify does not throw and either answers Lighthouse or the characteristic was already cached; it reports true exactly when the last attempt was answered with Success; a returned command leaves the characteristic cached |
| Devices.NullDeviceIff | OVRLighthouseManager/Models/LighthouseDevice.cs:65-69 | the null-device failure happens exactly when the service must be queried and no device can be fetched |
| Devices.WriteRefusalIsFinal | OVRLighthouseManager/Models/LighthouseDevice.cs:180-201 | a refusal on the first write gives up at once |
| Devices.WriteGivesUpAfterFive | OVRLighthouseManager/Models/LighthouseDevice.cs:180-201 | five Unreachable writes give up after five attempts |
| Devices.LighthouseDevice.constructor | OVRLighthouseManager/Models/LighthouseDevice.cs:36-41 | a new device holds the platform device and no service or characteristic |
| Devices.LighthouseDevice.Dispose | OVRLighthouseManager/Models/LighthouseDevice.cs:43-49 | releases device and service, keeps the characteristic handle |
| Devices.LighthouseDevice.DeviceConnectionStatusChanged | OVRLighthouseManager/Models/LighthouseDevice.cs:203-212 | a disconnect drops service and characteristic and raises OnDisconnected once |
| Devices.LighthouseDevice.PollWithRetry | OVRLighthouseManager/Models/LighthouseDevice.cs:71-106 | the loop's result and pause count are Poll's |
| Devices.LighthouseDevice.Identify | OVRLighthouseManager/Models/LighthouseDevice.cs:63-147 | result, queries, pauses and cached handles are IdentifySpec's |
| Devices.LighthouseDevice.PowerOnAsync | OVRLighthouseManager/Models/LighthouseDevice.cs:149-157 | result, bytes written and cached handles are SendSpec's for 0x01: Identify's exception propagates and its handles stay; a missing characteristic throws without writing; otherwise the write loop's acknowledgement after its attempts, each writing 0x01; no disconnect is raised |
| Devices.LighthouseDevice.SleepAsync | OVRLighthouseManager/Models/LighthouseDevice.cs:159-167 | result, bytes written and cached handles are SendSpec's for 0x00: Identify's exception propagates and its handles stay; a missing characteristic throws without writing; otherwise the write loop's acknowledgement after its attempts, each writing 0x00; no disconnect is raised |
| Devices.LighthouseDevice.StandbyAsync | OVRLighthouseManager/Models/LighthouseDevice.cs:169-177 | result, bytes written and cached handles are SendSpec's for 0x02: Identify's exception propagates and its handles stay; a missing characteristic throws without writing; otherwise the write loop's acknowledgement after its attempts, each writing 0x02; no disconnect is raised |
| Devices.LighthouseDevice.WriteCharacteristicAsync | OVRLighthouseManager/Models/LighthouseDevice.cs:180-201 | the loop's acknowledgement and the bytes written are WriteFrom's |
| Scanning.LighthouseService.StartScan | OVRLighthouseManager/Services/LighthouseService.cs:82-92 | throws without a BLE adapter; otherwise scanning is on afterwards and nothing else changes |
| Scanning.LighthouseService.StopScan | OVRLighthouseManager/Services/LighthouseService.cs:94-103 | scanning is off afterwards |
| Scanning.LighthouseService.EnumerationCompleted | OVRLighthouseManager/Services/LighthouseService.cs:69-73 | the end of an enumeration stops the scan |
| Scanning.LighthouseService.GetLighthouse | OVRLighthouseManager/Services/LighthouseService.cs:105-113 | null exactly when no known lighthouse has the address; otherwise the first one that has it |
| Scanning.LighthouseService.GetLighthouseByText | OVRLighthouseManager/Services/LighthouseService.cs:115-119 | parses the text (throwing on a bad one) and looks up the value |
| Scanning.LookupByAddressText | OVRLighthouseManager/Services/LighthouseService.cs:115-119 | the text AddressToString gives for an address finds the same lighthouse as the address itself |
| Scanning.LighthouseService.RemoveLighthouse | OVRLighthouseManager/Services/LighthouseService.cs:121-135 | a bad address text throws and changes nothing, neither the lists nor any lighthouse; otherwise drops the first known lighthouse at the address, which keeps only its characteristic handle, and drops the first device entry at the address (under the program's registration a duplicate of that entry stays listed); every other entry and lighthouse stays in order, and every other lighthouse is unchanged |
| Scanning.LighthouseService.DeviceWatcherAdded | OVRLighthouseManager/Services/LighthouseService.cs:164-196 | throws exactly for an "LHB-" name whose address property is missing or does not parse; identifies exactly when the name starts "LHB-", the address parses, no known lighthouse has it and the entry with the id is absent or Unknown; the entry identified is that listed one or a new one with the watcher's name, address and id, and the new state is IdentifiedAs's, and every other listed entry keeps its state; every other report changes nothing |
| Scanning.LighthouseService.DeviceWatcherUpdated | OVRLighthouseManager/Services/LighthouseService.cs:198-218 | identifies exactly the first entry with the id when it is Unknown and its name starts "LHB-", with IdentifiedAs's new state, and every other listed entry keeps its state; otherwise changes nothing |
| Scanning.LighthouseService.OnFoundPossibleLighthouse | OVRLighthouseManager/Services/LighthouseService.cs:220-259 | the new state is IdentifiedAs's: a null device leaves the entry Unknown and nothing else changes; otherwise the entry is registered (unless its address is a known lighthouse) and set Identifying; Lighthouse appends a fresh initialized device at the entry's address, fires OnFound once and removes one copy of the entry, leaving it Identifying; NotLighthouse or Unknown settles the entry; the verdict is Identify's result |
| Scanning.Register | OVRLighthouseManager/Services/LighthouseService.cs:229-232 | the entry is listed afterwards; the program's registration adds one copy every time, the corrected one keeps a duplicate-free list duplicate-free |
| Scanning.ReportAfterRemoval | OVRLighthouseManager/Services/LighthouseService.cs:164-259 | after Added (no answer), Updated (no answer), Updated (identified) and RemoveLighthouse, a new Added report of the same base station is ignored under the program's registration and identifies it as a lighthouse under the corrected one |
| Scanning.RemovedLighthouseIgnoredAsWritten | OVRLighthouseManager/Services/LighthouseService.cs:164-259 | with the program's registration the removed base station's next Added report is ignored |
| Scanning.RemovedLighthouseRediscovered | OVRLighthouseManager/Services/LighthouseService.cs:164-259 | with each entry listed once the removed base station's next Added report identifies it as a lighthouse again |
| Scanning.EnlistAsWritten | OVRLighthouseManager/Services/LighthouseService.cs:229-232 | the source's registration appends the entry after the unchanged list, even when it is already listed |
| Scanning.StaleEntryAsWritten | OVRLighthouseManager/Services/LighthouseService.cs:229-243 | an entry re-identified twice is listed three times, and two removals still leave it listed |
| Scanning.Enlist | OVRLighthouseManager/Services/LighthouseService.cs:229-232 | the corrected registration lists the entry once and keeps the list free of duplicates |
| Scanning.EnlistedEntryRemovedOnce | OVRLighthouseManager/Services/LighthouseService.cs:229-243 | with the corrected registration one removal drops the entry, however often it was re-identified |
| Commands.DeviceCommand.CanExecute | OVRLighthouseManager/Helpers/LighthouseCommands.cs:154-162 | the standby command refuses exactly the first-generation rows; otherwise every command is runnable between calls |
| Commands.DeviceCommand.ExecuteAsync | OVRLighthouseManager/Helpers/LighthouseCommands.cs:78-104 | a non-row parameter throws ArgumentException and leaves discovery alone; otherwise the GATT exchange for the command's byte runs, the discovery service is left as that exchange's failed lookups nudged it, and success or the communication error is reported once, without rethrowing |
| Commands.Report | OVRLighthouseManager/Helpers/LighthouseCommands.cs:88-98 | a success notification exactly when the exchange succeeded, else the communication error with its cause |
| Commands.OperationFor | OVRLighthouseManager/Helpers/LighthouseCommands.cs:214-219 | "powerOn" and "powerDown" select their operations and any other text selects none |
| Commands.PowerAllCommand.CanExecute | OVRLighthouseManager/Helpers/LighthouseCommands.cs:202-206 | false while a batch runs; otherwise true exactly when some row is managed; a null parameter throws only when no batch runs |
| Commands.PowerAllCommand.ExecuteAsync | OVRLighthouseManager/Helpers/LighthouseCommands.cs:208-253 | sends BatchPlan's commands in row order and shows one report per command; a null parameter throws; no batch is running afterwards in either case; discovery records nothing, is never stopped, and keeps its map unless a failed lookup started it |
| Commands.BatchCoversManaged | OVRLighthouseManager/Helpers/LighthouseCommands.cs:223-246 | exactly one command per managed row, in row order |
| Commands.BatchOnlyManaged | OVRLighthouseManager/Helpers/LighthouseCommands.cs:223-246 | unmanaged rows get nothing, and an unknown command text sends nothing |
| Commands.CommandChoice | OVRLighthouseManager/Helpers/LighthouseCommands.cs:225-242 | power-on batches send power on; power-down batches send sleep exactly when the mode is Sleep or the row is first-generation, else standby |
| LifeCycle.AppLifeCycleService.StartAll | OVRLighthouseManager/Services/AppLifeCycleService.cs:88-106 | the requests are Requests' multiset and the rethrown fault is the first managed device's parse error |
| LifeCycle.AppLifeCycleService.OnVRMonitorConnected | OVRLighthouseManager/Services/AppLifeCycleService.cs:75-109 | nothing when power management is off; otherwise a scan if allowed, then power on for every managed device with a parseable address; throws exactly when some managed address does not parse |
| LifeCycle.AppLifeCycleService.OnVRSystemQuit | OVRLighthouseManager/Services/AppLifeCycleService.cs:112-153 | nothing when power management is off; otherwise a scan if allowed and sleep for every such device; stop scan and exit follow only when no managed address failed |
| LifeCycle.AppLifeCycleService.OnLaunch | OVRLighthouseManager/Services/AppLifeCycleService.cs:32-67 | when the monitor is already connected the connected handler runs at once and its exception is swallowed |
| LifeCycle.RequestsMatchPowered | OVRLighthouseManager/Services/AppLifeCycleService.cs:88-106 | one request per managed device with a parseable address, all with the batch's command, each device's present |
| LifeCycle.PoweredParses | OVRLighthouseManager/Services/AppLifeCycleService.cs:88-95 | every powered device is a managed device of the settings with a parseable address |
| LifeCycle.ManagedDevicesArePowered | OVRLighthouseManager/Services/AppLifeCycleService.cs:88-95 | every managed device with a parseable address is powered, whatever the others hold |
| LifeCycle.FaultIffBadAddress | OVRLighthouseManager/Services/AppLifeCycleService.cs:89-106 | the batch throws exactly when some managed device's address does not parse |
| LifeCycle.QuitOnlySleeps | OVRLighthouseManager/Services/AppLifeCycleService.cs:125-143 | quitting VR only ever asks for sleep |

## Left out

- Windows Bluetooth (device watchers, `BluetoothLEDevice`, GATT calls) is replaced by scripted answers; the dispatcher queue and `async`/`await` scheduling are not modelled, so each handler runs to completion at once.
- Delays (`Task.Delay`) are counted as pauses, not timed.
- `ScanCommand` (`LighthouseCommands.cs:15-65`) is timing around the discovery service's StartDiscovery/StopDiscovery; the lifecycle handlers take its `CanExecute` answer as a parameter and record its effects.
- Logging, notification texts and localisation are left out; a notification is its kind and device name.
- `LighthouseDevice.Name`, `FromIdAsync` and the `OnDisconnected` handler's log line are left out; `FromBluetoothAddressAsync` is the constructor with the device the platform returned.
- `LighthouseService.HasBluetoothLEAdapter` is the `hasAdapter` parameter of StartScan; `DeviceWatcher_Removed` has an empty body.
- Scanning.LighthouseService.DeviceWatcherAdded: the `device.Name == ""` test after the "LHB-" test can never hold and is not modelled; the `(string)` cast of the address property is assumed to succeed.
- Commands.DeviceCommand.ExecuteAsync: `LighthouseObject` has a string address and no `Id`, and `lighthouse.Lighthouse` does not exist on it; the commands take a row with a 64-bit address and an optional id.
- Discovery.LighthouseDiscoveryService.DeviceWatcherAdded: the source assigns AddressToString's text to the ulong `BluetoothAddress` property; the model stores the address itself and faults when formatting throws.
- LifeCycle.AppLifeCycleService.OnVRMonitorConnected: the settings service's `Devices` are `Lighthouse` records without `IsManaged`, while the handlers read `IsManaged` and a string address; the model uses list items with those fields. The concurrent GATT exchanges of a batch are not modelled, only the requests, as a multiset.
- Devices.LighthouseDevice.WriteCharacteristicAsync: its pause at the end of the loop body is unreachable (every status returns or continues), so it has no pause count.
- `StartsWith` is ordinal; the .NET default is culture-sensitive, which agrees for these ASCII prefixes.
- The `using` disposal of devices and services in the GATT service is not modelled.

## Findings

| source | as written | input that shows it | evidently intended | confidence | as-written member | corrected member |
|---|---|---|---|---|---|---|
| OVRLighthouseManager/Services/LighthouseService.cs:229-232 | every identification appends the entry to the known-device list, even when it is already listed | an "LHB-" device answers Unknown, is retried by Updated and answers Unknown again, then answers Lighthouse and is removed by the user: the entry is listed three times, two removals leave it listed in state Identifying, and Added then ignores the device for good | list each entry once, so that a Lighthouse result and a removal drop it | not executed | Scanning.RemovedLighthouseIgnoredAsWritten | Scanning.RemovedLighthouseRediscovered |
