# LED strip controller over Bluetooth LE

This is a Dafny model of the core of an iOS app (with a shared Kotlin Multiplatform module) that drives an ELK-BLEDOM-style RGB LED strip from the phone or CarPlay. The model covers these parts:

- **Frames (Kotlin).** `LedCommandBuilder` builds the strip's 9-byte frames: colour, brightness, power on and power off. Each builder checks its arguments with `require`.
- **Colours (Kotlin).** `RgbColor` is a colour whose three channels are checked on construction. `LedColorMapper` maps the colour names to RGB.
- **Favourites (Kotlin).** `FavoritesRepository` keeps at most five distinct colours, in the order they were added.
- **Facade (Kotlin).** `SharedLedController` is the object the Swift side calls.
- **Byte conversion (Swift).** `KotlinByteArray.toData()` turns the signed Kotlin bytes into the unsigned bytes that are written to the strip.
- **Bluetooth manager (Swift).** `LedBleManager` is the CoreBluetooth central. It scans, filters devices by name pattern or advertised service, and connects with a 30 s timeout. It finds service 0xFFF0 and write characteristic 0xFFF3 and writes frames without response. It runs a 2 s keep-alive that resends the current brightness, and reconnects after drops and some errors.
- **Brightness intents (Swift).** The Siri intents use five preset brightness levels and clamped steps of 20.

The model is arranged as follows:

- **Kotlin bytes.** A Kotlin `Byte` is `Int8` (-128..127) and a wire byte is `UInt8`. `Int.toByte()` and Swift's `UInt8(bitPattern:)` are written out as modular arithmetic. Every frame contract is stated on the unsigned bytes against the layout the builder documents.
- **Kotlin `require`.** A failing `require` throws `IllegalArgumentException`. This is modelled as a `Failure(OutOfRange(parameter, value))` result, with the checks in the source's order.
- **The manager class.** `LedBleManager` is a class with the Swift object's fields. Each method is proved to keep `Valid()` and to move `State()` exactly as a pure transition function of `BleState` says: `ensures State() == ConnectNext(old(State()), ...)`. The lemmas are stated about those functions.
- **CoreBluetooth.** CoreBluetooth is not modelled. Its answers are parameters:
  - the retrieved peripheral and its `CBPeripheralState`;
  - the error codes;
  - the UUIDs of the services and characteristics found.

  Everything the manager asks of it goes into an append-only request log, `transport`: scan, stop, connect, cancel, discover, and write without response.
- **Timers and delayed closures.** Each `asyncAfter` closure is a task in the `pending` multiset, run later by its own method. The two timers are state, and each timer tick is a method. `BleEvents` collects every call, command, tick, closure and callback into an `Event`, and proves properties of every step and of every run of events.

Some behaviour of the code worth knowing:

- **Custom colour.** `LedColorMapper` maps `CUSTOM` to white. The two power frames differ at indices 3 and 5 only.
- **Dropped writes.** Writes go through `connectedPeripheral?.writeValue`. A command on a connected link that has its characteristic, but no peripheral, sends nothing and still updates the remembered colour or brightness.
- **Timeout while connected.** Suppose `connect(to:)` is called on a manager that is already connected and the new attempt times out. The manager is then left with `isConnected` still true and no peripheral (`BleEvents.UnansweredConnectTimesOut`).
- **Connection failure.** A failed connection attempt leaves the keep-alive timer and the write characteristic as they were. Only a disconnection clears them.
- **Initial keep-alive.** The initial keep-alive write is scheduled once for every matching characteristic in the list.

## Model

| member | source | states |
|---|---|---|
| Bytes.ToByte | composeApp/src/commonMain/kotlin/com/alperenturker/blcontroller/LedCommandBuilder.kt:18-20 | `toByte()` gives the one signed byte congruent to the value modulo 256 |
| Bytes.BitPattern | iosApp/iosApp/KotlinExtensions.swift:13-15 | `UInt8(bitPattern:)` gives the one unsigned byte congruent to the signed byte modulo 256 |
| Bytes.Unsigned | iosApp/iosApp/KotlinExtensions.swift:5-18 | the unsigned reading keeps the length and maps every byte by its bit pattern |
| Bytes.ByteRoundTrip | composeApp/src/commonMain/kotlin/com/alperenturker/blcontroller/LedCommandBuilder.kt:18-20 | narrowing 0..255 with `toByte()` and reading the bits back unsigned returns the value |
| Bytes.BitPatternInjective | iosApp/iosApp/KotlinExtensions.swift:15 | distinct signed bytes have distinct bit patterns |
| KotlinExtensions.ToData | iosApp/iosApp/KotlinExtensions.swift:5-18 | the copy loop yields the same length and, at every index, the bit pattern of the input byte |
| Rgb.MakeRgbColor | composeApp/src/commonMain/kotlin/com/alperenturker/blcontroller/RgbColor.kt:3-13 | succeeds iff all channels are in 0..255, with those channels; otherwise fails on red, then green, then blue |
| Rgb.ConstructedColorIsValid | composeApp/src/commonMain/kotlin/com/alperenturker/blcontroller/RgbColor.kt:8-12 | every colour passes its own checks and is rebuilt from its components |
| Rgb.RgbColorEquality | composeApp/src/commonMain/kotlin/com/alperenturker/blcontroller/RgbColor.kt:3-7 | data-class equality is component-wise |
| ColorMapper.MapToRgb | composeApp/src/commonMain/kotlin/com/alperenturker/blcontroller/LedColorMapper.kt:4-13 | every entry is a colour the constructor accepts, with each channel 0 or 255, never black; CUSTOM gives white |
| ColorMapper.PrimaryColors | composeApp/src/commonMain/kotlin/com/alperenturker/blcontroller/LedColorMapper.kt:6-8 | red, blue and green map to (255,0,0), (0,0,255), (0,255,0) |
| ColorMapper.MixedColors | composeApp/src/commonMain/kotlin/com/alperenturker/blcontroller/LedColorMapper.kt:9-10 | purple and white map to (255,0,255) and (255,255,255) |
| ColorMapper.CustomIsWhite | composeApp/src/commonMain/kotlin/com/alperenturker/blcontroller/LedColorMapper.kt:11 | CUSTOM falls back to white |
| ColorMapper.NamedColorsDistinct | composeApp/src/commonMain/kotlin/com/alperenturker/blcontroller/LedColorMapper.kt:6-10 | the five named colours map to five different colours |
| CommandBuilder.BuildColorCommand | composeApp/src/commonMain/kotlin/com/alperenturker/blcontroller/LedCommandBuilder.kt:8-24 | succeeds iff r, g, b are in 0..255; otherwise fails on the same channel, checked in the same order, as the `RgbColor` constructor (exception messages not modelled); the frame is 7E 00 05 03 r g b 00 EF |
| CommandBuilder.BuildColorCommandRgb | composeApp/src/commonMain/kotlin/com/alperenturker/blcontroller/LedCommandBuilder.kt:29-31 | the overload never fails for a constructed colour and equals the three-argument frame |
| CommandBuilder.BuildBrightnessCommand | composeApp/src/commonMain/kotlin/com/alperenturker/blcontroller/LedCommandBuilder.kt:37-51 | succeeds iff the value is in 0..255, otherwise a brightness range error; the frame is 7E 00 01 v v 00 00 00 EF |
| CommandBuilder.BuildPowerOnCommand | composeApp/src/commonMain/kotlin/com/alperenturker/blcontroller/LedCommandBuilder.kt:57-69 | the frame is 7E 04 04 F0 00 01 FF 00 EF |
| CommandBuilder.BuildPowerOffCommand | composeApp/src/commonMain/kotlin/com/alperenturker/blcontroller/LedCommandBuilder.kt:75-87 | the frame is 7E 04 04 00 00 00 FF 00 EF |
| CommandBuilder.KotlinFrame | composeApp/src/commonMain/kotlin/com/alperenturker/blcontroller/LedCommandBuilder.kt:13-23 | a byte array of `toByte()`-narrowed wire values reads back as those values |
| CommandBuilder.AllFramesHaveEnvelope | composeApp/src/commonMain/kotlin/com/alperenturker/blcontroller/LedCommandBuilder.kt:8-87 | every frame built is 9 bytes, starting 0x7E and ending 0xEF |
| CommandBuilder.PowerFramesDifferAt3And5 | composeApp/src/commonMain/kotlin/com/alperenturker/blcontroller/LedCommandBuilder.kt:57-87 | the power frames differ exactly at indices 3 and 5 |
| CommandBuilder.ColorCommandInjective | composeApp/src/commonMain/kotlin/com/alperenturker/blcontroller/LedCommandBuilder.kt:8-24 | equal colour frames come from equal channels |
| CommandBuilder.BrightnessCommandInjective | composeApp/src/commonMain/kotlin/com/alperenturker/blcontroller/LedCommandBuilder.kt:37-51 | equal brightness frames come from equal values |
| Favorites.RemoveFirst | composeApp/src/commonMain/kotlin/com/alperenturker/blcontroller/FavoritesRepository.kt:18-20 | `remove` leaves a list without the element unchanged, and otherwise shortens it by one |
| Favorites.RemoveFirstCutsFirstOccurrence | composeApp/src/commonMain/kotlin/com/alperenturker/blcontroller/FavoritesRepository.kt:18-20 | removal cuts out exactly the first occurrence, keeping the rest in order |
| Favorites.RemoveFirstKeepsDistinct | composeApp/src/commonMain/kotlin/com/alperenturker/blcontroller/FavoritesRepository.kt:18-20 | removing from a duplicate-free list keeps it duplicate-free and leaves no copy of the element |
| Favorites.FavoritesRepository.constructor | composeApp/src/commonMain/kotlin/com/alperenturker/blcontroller/FavoritesRepository.kt:3-5 | starts empty, within the limit of five |
| Favorites.FavoritesRepository.AddFavorite | composeApp/src/commonMain/kotlin/com/alperenturker/blcontroller/FavoritesRepository.kt:7-16 | true iff there are fewer than five and the colour is new, and then the colour is appended; otherwise nothing changes; distinctness and the limit are kept |
| Favorites.FavoritesRepository.RemoveFavorite | composeApp/src/commonMain/kotlin/com/alperenturker/blcontroller/FavoritesRepository.kt:18-20 | true iff the colour was present; the list becomes the list without its first occurrence |
| Favorites.FavoritesRepository.GetFavorites | composeApp/src/commonMain/kotlin/com/alperenturker/blcontroller/FavoritesRepository.kt:22-24 | returns the list in insertion order |
| Favorites.FavoritesRepository.ClearFavorites | composeApp/src/commonMain/kotlin/com/alperenturker/blcontroller/FavoritesRepository.kt:26-28 | empties the list |
| Favorites.FavoritesRepository.IsFavorite | composeApp/src/commonMain/kotlin/com/alperenturker/blcontroller/FavoritesRepository.kt:30-32 | true iff the colour is in the list |
| Favorites.FavoritesRepository.CanAddMore | composeApp/src/commonMain/kotlin/com/alperenturker/blcontroller/FavoritesRepository.kt:34-36 | true iff fewer than five are stored |
| Favorites.FavoritesScenario | composeApp/src/commonMain/kotlin/com/alperenturker/blcontroller/FavoritesRepository.kt:7-36 | a repeated colour and a sixth colour are refused, and clearing makes room again |
| SharedController.GetColorCommandBytes | composeApp/src/commonMain/kotlin/com/alperenturker/blcontroller/SharedLedController.kt:9-12 | the frame of a named colour is the colour frame of its table entry |
| SharedController.GetColorCommandBytesRgb | composeApp/src/commonMain/kotlin/com/alperenturker/blcontroller/SharedLedController.kt:17-19 | delegates to the builder: succeeds iff the channels are in range, giving the colour layout |
| SharedController.GetBrightnessCommandBytes | composeApp/src/commonMain/kotlin/com/alperenturker/blcontroller/SharedLedController.kt:24-26 | delegates to the builder: succeeds iff the value is in 0..255, giving the brightness layout |
| SharedController.GetPowerOnCommandBytes | composeApp/src/commonMain/kotlin/com/alperenturker/blcontroller/SharedLedController.kt:31-33 | the power-on layout |
| SharedController.GetPowerOffCommandBytes | composeApp/src/commonMain/kotlin/com/alperenturker/blcontroller/SharedLedController.kt:38-40 | the power-off layout |
| SharedController.SharedLedController.constructor | composeApp/src/commonMain/kotlin/com/alperenturker/blcontroller/SharedLedController.kt:3-4 | owns a fresh, empty repository |
| SharedController.SharedLedController.AddFavorite | composeApp/src/commonMain/kotlin/com/alperenturker/blcontroller/SharedLedController.kt:45-47 | fails with the constructor's error before touching the list when a channel is out of range; otherwise the repository's add |
| SharedController.SharedLedController.RemoveFavorite | composeApp/src/commonMain/kotlin/com/alperenturker/blcontroller/SharedLedController.kt:52-54 | fails with the constructor's error when a channel is out of range; otherwise the repository's remove |
| SharedController.SharedLedController.GetFavorites | composeApp/src/commonMain/kotlin/com/alperenturker/blcontroller/SharedLedController.kt:59-61 | the favourites as (r, g, b) triples, in the same order |
| SharedController.SharedLedController.CanAddMoreFavorites | composeApp/src/commonMain/kotlin/com/alperenturker/blcontroller/SharedLedController.kt:66-68 | true iff fewer than five are stored |
| BleDevices.ContainsIffOccurs | iosApp/iosApp/LedBleManager.swift:388-390 | the substring search holds iff the pattern occurs at some index |
| BleDevices.MatchesAnyPatternIff | iosApp/iosApp/LedBleManager.swift:386-391 | a name matches iff some pattern occurs in it, ignoring case |
| BleDevices.FirstWithId | iosApp/iosApp/LedBleManager.swift:531 | finds a device iff one with the id is listed, and it is the first such |
| BleDevices.MelkDeviceAdmitted | iosApp/iosApp/LedBleManager.swift:416-444 | a "MELK" name is admitted with "show all" off and no service advertised |
| BleDevices.NoMarkerNoMatch | iosApp/iosApp/LedBleManager.swift:386-391 | a name lacking all of l, b, g, m matches none of the nine patterns |
| BleDevices.SpeakerRefused | iosApp/iosApp/LedBleManager.swift:416-444 | "Speaker" is not admitted with "show all" off and no service advertised |
| BleDevices.NamelessNeverMatches | iosApp/iosApp/LedBleManager.swift:386-387 | a nameless peripheral never matches, and is admitted only by "show all" or the advertised service |
| BleState.Initial | iosApp/iosApp/LedBleManager.swift:18-23 | the start-up state satisfies the invariant |
| BleState.ScalePercent | iosApp/iosApp/LedBleManager.swift:330 | the percentage scaled to 0..255 is the truncation of level x 2.55 |
| BleState.MatchCount | iosApp/iosApp/LedBleManager.swift:556-563 | counts matching UUIDs; zero iff the target is absent |
| BleState.MatchCountAppend | iosApp/iosApp/LedBleManager.swift:556-563 | one more UUID adds one to the count exactly when it is the target |
| BleState.StartScanningNext | iosApp/iosApp/LedBleManager.swift:68-80 | keeps the invariant |
| BleState.StopScanningNext | iosApp/iosApp/LedBleManager.swift:82-87 | keeps the invariant |
| BleState.StartKeepAliveNext | iosApp/iosApp/LedBleManager.swift:206-218 | keeps the invariant |
| BleState.MarkConnectedNext | iosApp/iosApp/LedBleManager.swift:99-105 | keeps the invariant |
| BleState.PerformConnectionNext | iosApp/iosApp/LedBleManager.swift:132-166 | keeps the invariant |
| BleState.ConnectNext | iosApp/iosApp/LedBleManager.swift:89-130 | keeps the invariant |
| BleState.ConnectAfterStop | iosApp/iosApp/LedBleManager.swift:92-129 | keeps the invariant |
| BleState.DisconnectNext | iosApp/iosApp/LedBleManager.swift:189-202 | keeps the invariant |
| BleState.ScanAndConnectNext | iosApp/iosApp/LedBleManager.swift:277-296 | keeps the invariant |
| BleState.SetShowAllDevicesNext | iosApp/iosApp/LedBleManager.swift:49 | setting the "show all devices" flag keeps the invariant |
| BleState.SetColorNext | iosApp/iosApp/LedBleManager.swift:298-321 | keeps the invariant |
| BleState.SetBrightnessNext | iosApp/iosApp/LedBleManager.swift:323-340 | keeps the invariant, including brightness in 0..100 |
| BleState.PowerOnNext | iosApp/iosApp/LedBleManager.swift:342-353 | keeps the invariant |
| BleState.PowerOffNext | iosApp/iosApp/LedBleManager.swift:355-366 | keeps the invariant |
| BleState.WriteNext | iosApp/iosApp/LedBleManager.swift:368-377 | keeps the invariant |
| BleState.ConnectionTimeoutNext | iosApp/iosApp/LedBleManager.swift:144-161 | keeps the invariant |
| BleState.KeepAliveTickNext | iosApp/iosApp/LedBleManager.swift:221-238 | keeps the invariant |
| BleState.InitialKeepAliveNext | iosApp/iosApp/LedBleManager.swift:601-611 | keeps the invariant |
| BleState.DelayedConnectNext | iosApp/iosApp/LedBleManager.swift:121-123 | keeps the invariant |
| BleState.ReconnectAfterTimeoutErrorNext | iosApp/iosApp/LedBleManager.swift:496-498 | keeps the invariant |
| BleState.ReconnectAfterDropNext | iosApp/iosApp/LedBleManager.swift:504-507 | keeps the invariant |
| BleState.RetryFailedConnectNext | iosApp/iosApp/LedBleManager.swift:528-534 | keeps the invariant |
| BleState.DidUpdateStateNext | iosApp/iosApp/LedBleManager.swift:397-414 | keeps the invariant |
| BleState.DidDiscoverNext | iosApp/iosApp/LedBleManager.swift:416-445 | keeps the invariant, including distinct ids |
| BleState.DidConnectNext | iosApp/iosApp/LedBleManager.swift:447-474 | keeps the invariant |
| BleState.DropLinkNext | iosApp/iosApp/LedBleManager.swift:513-518 | keeps the invariant |
| BleState.Teardown | iosApp/iosApp/LedBleManager.swift:478-486 | keeps the invariant |
| BleState.DidDisconnectNext | iosApp/iosApp/LedBleManager.swift:476-509 | keeps the invariant |
| BleState.DidFailToConnectNext | iosApp/iosApp/LedBleManager.swift:511-536 | keeps the invariant |
| BleState.DidDiscoverServicesNext | iosApp/iosApp/LedBleManager.swift:542-571 | keeps the invariant |
| BleState.CharacteristicFound | iosApp/iosApp/LedBleManager.swift:589-612 | keeps the invariant: only the 0xFFF3 characteristic is stored |
| BleState.CharacteristicFoundStep | iosApp/iosApp/LedBleManager.swift:587-613 | one more find of the characteristic is one more pass of the loop body |
| BleState.DidDiscoverCharacteristicsNext | iosApp/iosApp/LedBleManager.swift:573-622 | keeps the invariant |
| BleState.DiscoveryKeepsIdsDistinct | iosApp/iosApp/LedBleManager.swift:429-443 | a peripheral is appended exactly when admitted and its id is not listed yet; ids stay distinct |
| BleState.ScanningNeedsPower | iosApp/iosApp/LedBleManager.swift:68-80 | nothing happens unless powered on; otherwise the list is cleared, the scan starts and the status says scanning |
| BleState.StopScanningPolicy | iosApp/iosApp/LedBleManager.swift:82-87 | stopping asks CoreBluetooth to stop and reports "not connected" unless connected; nothing else changes |
| BleState.ConnectStopsScanFirst | iosApp/iosApp/LedBleManager.swift:89-90 | the first request of `connect(to:)` is always the scan stop |
| BleState.ConnectRequestsLink | iosApp/iosApp/LedBleManager.swift:129-166 | an unknown or disconnected device gets a connect request, the timeout armed and the status "connecting" |
| BleState.ConnectReusesLink | iosApp/iosApp/LedBleManager.swift:97-107 | a connected device is reused: connected, saved, services requested, no connect request, keep-alive only with a characteristic |
| BleState.ConnectWaitsOrRetries | iosApp/iosApp/LedBleManager.swift:108-125 | a connecting device is waited on; a disconnecting one is cancelled and a delayed connection scheduled |
| BleState.DidConnectPolicy | iosApp/iosApp/LedBleManager.swift:447-466 | the connect callback marks the link connected and not connecting, saves the device and requests its services, leaving keep-alive and characteristic alone |
| BleState.ConnectedLinkSurvivesTimeout | iosApp/iosApp/LedBleManager.swift:451-452 | after the connect callback no timer is armed, and a fired one changes nothing else |
| BleState.TimeoutAbandonsAttempt | iosApp/iosApp/LedBleManager.swift:145-153 | a timeout while connecting cancels the attempt, drops the peripheral and reports the timeout |
| BleState.DisconnectTearsDown | iosApp/iosApp/LedBleManager.swift:189-202 | `disconnect()` leaves nothing connected, no timers, no characteristic, and cancels the peripheral |
| BleState.DidUpdateStatePolicy | iosApp/iosApp/LedBleManager.swift:397-414 | powered on reconnects to the saved device; powered off, unauthorized and unsupported set their statuses; other states change nothing else |
| BleState.DisconnectCallbackPolicy | iosApp/iosApp/LedBleManager.swift:476-509 | the link is torn down; a reconnection is scheduled iff there was no error or the code is 6 |
| BleState.ReconnectGuards | iosApp/iosApp/LedBleManager.swift:496-507 | the reconnection after a drop is skipped while connected; the one after error 6 always runs |
| BleState.SavedDevicePolicy | iosApp/iosApp/LedBleManager.swift:277-296 | scans when nothing is saved or retrievable, else connects under the saved id and name |
| BleState.FailedConnectPolicy | iosApp/iosApp/LedBleManager.swift:511-536 | a failed attempt is abandoned, and retried iff the error code is 10 |
| BleState.RetryPolicy | iosApp/iosApp/LedBleManager.swift:528-534 | the retry connects only while not connected, to the first listed device with the id |
| BleState.CommandsNeedReadyLink | iosApp/iosApp/LedBleManager.swift:298-377 | without a link and characteristic the commands do nothing, except the colour command re-requesting services |
| BleState.CommandsWriteKotlinFrames | iosApp/iosApp/LedBleManager.swift:313-365 | on a ready link each command writes the shared builder's frame, as unsigned bytes, without response |
| BleState.CharacteristicPolicy | iosApp/iosApp/LedBleManager.swift:587-621 | finding 0xFFF3 stores it, reports ready and starts the keep-alive; otherwise only the status changes |
| BleState.ServicePolicy | iosApp/iosApp/LedBleManager.swift:556-563 | characteristics are requested once per 0xFFF0 service, and only then |
| BleState.KeepAlivePolicy | iosApp/iosApp/LedBleManager.swift:206-238 | the keep-alive runs iff the link is ready, resends the current brightness, and stops itself otherwise |
| BleEvents.CallStep | iosApp/iosApp/LedBleManager.swift:68-296 | the app's scan and connection calls, and setting the "show all devices" flag, keep the invariant |
| BleEvents.CommandStep | iosApp/iosApp/LedBleManager.swift:298-377 | the commands keep the invariant |
| BleEvents.TimerStep | iosApp/iosApp/LedBleManager.swift:144-238 | the timer ticks keep the invariant |
| BleEvents.DelayedStep | iosApp/iosApp/LedBleManager.swift:121-611 | the delayed closures keep the invariant |
| BleEvents.CentralStep | iosApp/iosApp/LedBleManager.swift:397-536 | the central callbacks keep the invariant |
| BleEvents.DeviceStep | iosApp/iosApp/LedBleManager.swift:542-622 | the peripheral callbacks keep the invariant |
| BleEvents.Step | iosApp/iosApp/LedBleManager.swift:68-622 | every event keeps the invariant |
| BleEvents.Run | iosApp/iosApp/LedBleManager.swift:68-622 | every run of events keeps the invariant |
| BleEvents.StartScanningIsQuiet | iosApp/iosApp/LedBleManager.swift:68-80 | scanning writes nothing and keeps colour and brightness |
| BleEvents.ReuseIsQuiet | iosApp/iosApp/LedBleManager.swift:97-107 | reusing a link writes nothing |
| BleEvents.ConnectBranchIsQuiet | iosApp/iosApp/LedBleManager.swift:92-129 | the branches of `connect(to:)` write nothing |
| BleEvents.ConnectIsQuiet | iosApp/iosApp/LedBleManager.swift:89-130 | `connect(to:)` writes nothing |
| BleEvents.ScanAndConnectIsQuiet | iosApp/iosApp/LedBleManager.swift:277-296 | reconnecting to the saved device writes nothing |
| BleEvents.CallsAreQuiet | iosApp/iosApp/LedBleManager.swift:68-296 | no scan or connection call, nor the "show all devices" flag, writes |
| BleEvents.CommandsWriteOnlyWhenReady | iosApp/iosApp/LedBleManager.swift:298-377 | commands write only on a ready link, through the stored characteristic; only `setBrightness` changes the brightness, to its level |
| BleEvents.TimersWriteOnlyWhenReady | iosApp/iosApp/LedBleManager.swift:144-238 | timers write only on a ready link and never change the brightness |
| BleEvents.ReconnectionsAreQuiet | iosApp/iosApp/LedBleManager.swift:496-534 | the delayed reconnections write nothing |
| BleEvents.DelayedWriteOnlyWhenReady | iosApp/iosApp/LedBleManager.swift:601-611 | the initial keep-alive writes only on a ready link; no closure changes the brightness |
| BleEvents.DidUpdateStateIsQuiet | iosApp/iosApp/LedBleManager.swift:397-414 | a state update writes nothing |
| BleEvents.CentralCallbacksAreQuiet | iosApp/iosApp/LedBleManager.swift:397-536 | no central callback writes |
| BleEvents.DeviceCallbacksAreQuiet | iosApp/iosApp/LedBleManager.swift:542-622 | the discovery callbacks write nothing |
| BleEvents.StepWritesOnlyWhenReady | iosApp/iosApp/LedBleManager.swift:68-622 | every event only appends requests, writes only on a ready link to the connected peripheral, and changes the brightness only through `setBrightness` |
| BleEvents.RunAppendsRequests | iosApp/iosApp/LedBleManager.swift:68-622 | over any run the request log is only appended to |
| BleEvents.RunBrightnessComesFromSet | iosApp/iosApp/LedBleManager.swift:323-340 | after any run the brightness is the initial one or the level of some `setBrightness` in the run |
| BleEvents.HandshakeSteps | iosApp/iosApp/LedBleManager.swift:447-612 | connect, connect callback, services with 0xFFF0 and characteristics with 0xFFF3 end ready |
| BleEvents.HandshakeReachesReady | iosApp/iosApp/LedBleManager.swift:89-612 | the same handshake as a run of events ends ready for commands, with the keep-alive running and the device saved |
| BleEvents.UnansweredConnectTimesOut | iosApp/iosApp/LedBleManager.swift:132-166 | an unanswered connect times out: cancelled, no peripheral, status timed out |
| LedBle.LedBleManager.constructor | iosApp/iosApp/LedBleManager.swift:18-23 | the start-up state |
| LedBle.LedBleManager.StartScanning | iosApp/iosApp/LedBleManager.swift:68-80 | moves the state as `StartScanningNext` |
| LedBle.LedBleManager.StopScanning | iosApp/iosApp/LedBleManager.swift:82-87 | moves the state as `StopScanningNext` |
| LedBle.LedBleManager.Connect | iosApp/iosApp/LedBleManager.swift:89-130 | moves the state as `ConnectNext` |
| LedBle.LedBleManager.PerformConnection | iosApp/iosApp/LedBleManager.swift:132-177 | moves the state as `PerformConnectionNext` |
| LedBle.LedBleManager.Disconnect | iosApp/iosApp/LedBleManager.swift:189-202 | moves the state as `DisconnectNext` |
| LedBle.LedBleManager.ClearConnection | iosApp/iosApp/LedBleManager.swift:478-486 | moves the state as `Teardown` |
| LedBle.LedBleManager.DropLink | iosApp/iosApp/LedBleManager.swift:513-518 | moves the state as `DropLinkNext` |
| LedBle.LedBleManager.StartKeepAlive | iosApp/iosApp/LedBleManager.swift:206-244 | moves the state as `StartKeepAliveNext` |
| LedBle.LedBleManager.StopKeepAlive | iosApp/iosApp/LedBleManager.swift:246-249 | clears the keep-alive timer only |
| LedBle.LedBleManager.ScanAndConnectToSavedDevice | iosApp/iosApp/LedBleManager.swift:277-296 | moves the state as `ScanAndConnectNext` |
| LedBle.LedBleManager.SetShowAllDevices | iosApp/iosApp/LedBleManager.swift:49 | moves the state as `SetShowAllDevicesNext` |
| LedBle.LedBleManager.SetColor | iosApp/iosApp/LedBleManager.swift:298-321 | moves the state as `SetColorNext` |
| LedBle.LedBleManager.SetBrightness | iosApp/iosApp/LedBleManager.swift:323-340 | moves the state as `SetBrightnessNext` |
| LedBle.LedBleManager.PowerOn | iosApp/iosApp/LedBleManager.swift:342-353 | moves the state as `PowerOnNext` |
| LedBle.LedBleManager.PowerOff | iosApp/iosApp/LedBleManager.swift:355-366 | moves the state as `PowerOffNext` |
| LedBle.LedBleManager.Write | iosApp/iosApp/LedBleManager.swift:368-377 | moves the state as `WriteNext` |
| LedBle.LedBleManager.WriteValue | iosApp/iosApp/LedBleManager.swift:319 | appends a write only when there is a peripheral |
| LedBle.LedBleManager.BrightnessData | iosApp/iosApp/LedBleManager.swift:330-335 | the bytes sent for a percentage are the brightness layout of its scaled value |
| LedBle.LedBleManager.SaveLastDevice | iosApp/iosApp/LedBleManager.swift:381-384 | saves the id and the name, or the unknown-device name |
| LedBle.LedBleManager.ConnectionTimeout | iosApp/iosApp/LedBleManager.swift:144-161 | moves the state as `ConnectionTimeoutNext` |
| LedBle.LedBleManager.KeepAliveTick | iosApp/iosApp/LedBleManager.swift:221-238 | moves the state as `KeepAliveTickNext` |
| LedBle.LedBleManager.RunInitialKeepAlive | iosApp/iosApp/LedBleManager.swift:601-611 | moves the state as `InitialKeepAliveNext` |
| LedBle.LedBleManager.RunDelayedConnect | iosApp/iosApp/LedBleManager.swift:121-123 | moves the state as `DelayedConnectNext` |
| LedBle.LedBleManager.RunReconnectAfterTimeoutError | iosApp/iosApp/LedBleManager.swift:496-498 | moves the state as `ReconnectAfterTimeoutErrorNext` |
| LedBle.LedBleManager.RunReconnectAfterDrop | iosApp/iosApp/LedBleManager.swift:504-507 | moves the state as `ReconnectAfterDropNext` |
| LedBle.LedBleManager.RunRetryFailedConnect | iosApp/iosApp/LedBleManager.swift:528-534 | moves the state as `RetryFailedConnectNext` |
| LedBle.LedBleManager.DidUpdateState | iosApp/iosApp/LedBleManager.swift:397-414 | moves the state as `DidUpdateStateNext` |
| LedBle.LedBleManager.DidDiscover | iosApp/iosApp/LedBleManager.swift:416-445 | moves the state as `DidDiscoverNext` |
| LedBle.LedBleManager.DidConnect | iosApp/iosApp/LedBleManager.swift:447-474 | moves the state as `DidConnectNext` |
| LedBle.LedBleManager.MarkConnected | iosApp/iosApp/LedBleManager.swift:453-464 | moves the state as `MarkConnectedNext` |
| LedBle.LedBleManager.DidDisconnect | iosApp/iosApp/LedBleManager.swift:476-509 | moves the state as `DidDisconnectNext` |
| LedBle.LedBleManager.DidFailToConnect | iosApp/iosApp/LedBleManager.swift:511-536 | moves the state as `DidFailToConnectNext` |
| LedBle.LedBleManager.DidDiscoverServices | iosApp/iosApp/LedBleManager.swift:542-571 | the loop over the services moves the state as `DidDiscoverServicesNext` |
| LedBle.LedBleManager.DidDiscoverCharacteristics | iosApp/iosApp/LedBleManager.swift:573-622 | the loop over the characteristics moves the state as `DidDiscoverCharacteristicsNext` |
| LedBle.LedBleManager.UseWriteCharacteristic | iosApp/iosApp/LedBleManager.swift:590-611 | stores the characteristic, reports ready, starts the keep-alive and schedules one initial write |
| BrightnessIntent.Value | iosApp/iosApp/AppIntents/SetLedBrightnessIntent.swift:21-29 | every preset is a multiple of 20 in 20..100, and 100 only for max |
| BrightnessIntent.PresetValues | iosApp/iosApp/AppIntents/SetLedBrightnessIntent.swift:21-29 | very low, low, medium, high and max are 20, 40, 60, 80 and 100 |
| BrightnessIntent.LevelOf | iosApp/iosApp/AppIntents/SetLedBrightnessIntent.swift:21-29 | a percentage has a preset iff it is a multiple of 20 in 20..100 |
| BrightnessIntent.ValueRoundTrip | iosApp/iosApp/AppIntents/SetLedBrightnessIntent.swift:21-29 | presets and their percentages correspond one to one |
| BrightnessIntent.PresetsAreAccepted | iosApp/iosApp/AppIntents/SetLedBrightnessIntent.swift:21-29 | every preset is a valid percentage whose scaled frame builds without failure |
| BrightnessIntent.Increase | iosApp/iosApp/AppIntents/SetLedBrightnessIntent.swift:69 | the new level is at most 100, not below a valid current level, and either 20 more or 100 |
| BrightnessIntent.Decrease | iosApp/iosApp/AppIntents/SetLedBrightnessIntent.swift:91 | the new level is at least 0, not above a valid current level, and either 20 less or 0 |
| BrightnessIntent.StepsStayInRange | iosApp/iosApp/AppIntents/SetLedBrightnessIntent.swift:69-91 | from 0..100 both steps stay in 0..100 |
| BrightnessIntent.StepsStopAtBounds | iosApp/iosApp/AppIntents/SetLedBrightnessIntent.swift:69-91 | increase fixes exactly 100 and decrease exactly 0 |
| BrightnessIntent.StepsUndoEachOther | iosApp/iosApp/AppIntents/SetLedBrightnessIntent.swift:69-91 | away from the bounds, one step down undoes one step up and vice versa |
| BrightnessIntent.StepsAreMonotone | iosApp/iosApp/AppIntents/SetLedBrightnessIntent.swift:69-91 | both steps keep the order of levels |
| BrightnessIntent.IncreaseTimesClimbs | iosApp/iosApp/AppIntents/SetLedBrightnessIntent.swift:69 | k increases add 20 each, up to 100 |
| BrightnessIntent.DecreaseTimesFalls | iosApp/iosApp/AppIntents/SetLedBrightnessIntent.swift:91 | k decreases take 20 each, down to 0 |
| BrightnessIntent.FiveStepsReachTheBounds | iosApp/iosApp/AppIntents/SetLedBrightnessIntent.swift:69-91 | five increases reach 100 and five decreases reach 0 from any valid level |

## Left out

- BleState.SetColorNext: a channel out of 0..255 on a ready link makes the Kotlin `require` throw through Swift, which crashes the app. This is a precondition here, not a modelled failure. The same holds for LedBle.LedBleManager.SetColor and BleEvents.CommandEnabled.
- BleState.SetBrightnessNext: a level outside 0..100 on a ready link crashes the same way, and is likewise a precondition. The same holds for LedBle.LedBleManager.SetBrightness.
- BleState.ScalePercent: computes `level * 255 / 100` in integers. It does not model the `Double` rounding of `Int((Double(level) / 100.0) * 255.0)`.
- BleEvents.Run: stops at the first event that cannot happen, such as a timer that is not scheduled or a closure that is not pending, instead of skipping it.
- Favorites.RemoveFirst: its own contract gives only the length and the no-op case. The exact result is stated by `RemoveFirstCutsFirstOccurrence`.
- The transition functions of `BleState` state only that they keep the invariant. What each one does is stated by the policy lemmas and by the manager methods that are proved equal to them.
- Names are matched with ASCII lower-casing. The locale-aware case folding of `localizedCaseInsensitiveContains` is not modelled.
- `currentColor` is kept as the requested `RgbColor`, not as a `UIColor` of floating-point components.
- `UserDefaults` is the `lastDevice` field, and the UUID string parsing of the saved identifier is not modelled.
- Background tasks (`startBackgroundTask`, `renewBackgroundTask`, `endBackgroundTask`) are left out, as is setting delegates. They are UIKit and runtime bookkeeping with no effect on the Bluetooth state.
- These are left out because they only log:
  - the 2 s connection progress check and the 5 s service-discovery check;
  - `didWriteValueFor`, `didUpdateNotificationStateFor` and `peripheralDidUpdateName`;
  - `stateDescription`.
- Wall-clock delays are left out. Which timer or closure runs next is the choice of the event sequence.
- The app intents' `perform` bodies (the connection guard, the 2 s sleep, the thrown `IntentError`), the views and the shortcuts are not part of this model. Only the brightness values and steps are.
- The messages of the exceptions that the Kotlin `require`s throw are not modelled. A failure records only the parameter and the offending value. The builder and the `RgbColor` constructor therefore report the same failure, although their message texts differ.
