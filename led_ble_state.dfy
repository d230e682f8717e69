/** The state of `LedBleManager` as a value, and one transition function per
    public operation, delegate callback and timer or delayed closure. The
    class in `LedBle` is proved to follow these functions; the lemmas at the
    end state the manager's policies about them.

    CoreBluetooth is reduced to its inputs (the radio state, a peripheral
    the central can retrieve and its connection state, error codes, the
    UUIDs found during discovery) and to the requests the manager hands to
    it, recorded in order in `transport`. Timers and `asyncAfter` closures
    are events: a closure that has been scheduled and not yet run sits in
    `pending`. */
module BleState {
  import opened Wrappers
  import opened Checks
  import opened Bytes
  import opened Rgb
  import opened CommandBuilder
  import opened BleDevices

  /** A `CBCharacteristic`: the peripheral it was found on and its UUID. */
  datatype Characteristic = Characteristic(owner: Uuid, uuid: Uuid)

  /** An `NSError` from CoreBluetooth: its code and its localized text. */
  datatype BleError = BleError(code: int, description: string)

  /** The disconnect error code after which the manager reconnects. */
  const DisconnectTimeoutCode: int := 6
  /** The connect-failure error code after which the manager retries. */
  const ConnectRetryCode: int := 10

  /** The last device, as kept in `UserDefaults` under two keys; the name
      key may be missing. */
  datatype SavedDevice = SavedDevice(id: Uuid, name: Option<string>)

  /** The name given to the saved device when no name was stored. */
  const SavedDeviceName := "Kayıtlı Cihaz"

  /** What `retrievePeripherals(withIdentifiers:)` returned first, with the
      peripheral's state at that moment. */
  datatype Retrieved = Retrieved(peripheral: Peripheral, state: PeripheralState)

  /** `connectionStatus`, one constructor per message the manager shows. */
  datatype Status =
    | NotConnected
    | ScanningForDevices
    | ConnectingToDevice
    | ConnectedToDevice
    | ConnectionTimedOut
    | DisconnectedWithError(description: string)
    | ConnectionFailed
    | ReadyForCommands
    | WriteCharacteristicMissing
    | BluetoothOff
    | BluetoothNeedsPermission
    | BluetoothUnsupported

  /** A request the manager hands to CoreBluetooth. */
  datatype Action =
    | StartScan
    | StopScan
    | ConnectRequest(peripheral: Peripheral)
    | CancelConnection(peripheral: Peripheral)
    | DiscoverServices(peripheral: Peripheral)
    | DiscoverCharacteristics(peripheral: Peripheral)
    | WriteWithoutResponse(peripheral: Peripheral, characteristic: Characteristic, data: seq<UInt8>)

  /** A closure scheduled with `asyncAfter` that has not run yet. */
  datatype Task =
    | DelayedConnect(device: DiscoveredDevice)
    | ReconnectAfterTimeoutError
    | ReconnectAfterDrop
    | RetryFailedConnect(id: Uuid)
    | InitialKeepAlive

  /** The optional one-shot `connectionTimer`: nil, scheduled, or still
      referenced after it has fired. */
  datatype TimerRef = NoTimer | Scheduled | Fired

  datatype ManagerState = ManagerState(
    isConnected: bool,
    isConnecting: bool,
    currentColor: RgbColor,
    currentBrightness: int,
    discoveredDevices: seq<DiscoveredDevice>,
    connectionStatus: Status,
    showAllDevices: bool,
    centralState: CentralState,
    connectedPeripheral: Option<Peripheral>,
    writeCharacteristic: Option<Characteristic>,
    connectionTimer: TimerRef,
    keepAliveTimer: bool,
    lastDevice: Option<SavedDevice>,
    transport: seq<Action>,
    pending: multiset<Task>)

  /** What every reachable state satisfies: the brightness is a percentage,
      the device list has no two entries with one id, and only the write
      characteristic is ever stored. */
  predicate Inv(s: ManagerState) {
    && 0 <= s.currentBrightness <= 100
    && DistinctIds(s.discoveredDevices)
    && (s.writeCharacteristic.Some? ==> s.writeCharacteristic.value.uuid == WriteCharacteristicUuid)
  }

  /** The state at start-up, with the last device `UserDefaults` holds. */
  function Initial(saved: Option<SavedDevice>): (s: ManagerState)
    ensures Inv(s)
  {
    ManagerState(false, false, RgbColor(255, 255, 255), 100, [], NotConnected, false, Unknown,
                 None, None, NoTimer, false, saved, [], multiset{})
  }

  /** `Int((Double(level) / 100.0) * 255.0)` for a percentage: the
      truncated scaling of 0..100 onto 0..255. */
  function ScalePercent(level: int): (v: int)
    requires 0 <= level <= 100
    ensures 0 <= v <= 255
    ensures 100 * v <= 255 * level < 100 * (v + 1)
  {
    level * 255 / 100
  }

  function Repeat<T>(x: T, n: nat): (r: seq<T>)
    ensures |r| == n && forall i :: 0 <= i < n ==> r[i] == x
  {
    seq(n, _ => x)
  }

  /** How many entries of `uuids` equal `target`. */
  function MatchCount(uuids: seq<Uuid>, target: Uuid): (n: nat)
    ensures n <= |uuids|
    ensures n == 0 <==> target !in uuids
  {
    if uuids == [] then 0
    else
      var init := uuids[..|uuids| - 1];
      assert uuids == init + [uuids[|uuids| - 1]];
      MatchCount(init, target) + if uuids[|uuids| - 1] == target then 1 else 0
  }

  /** Counting one more UUID adds one exactly when it is the target. */
  lemma MatchCountAppend(uuids: seq<Uuid>, x: Uuid, target: Uuid)
    ensures MatchCount(uuids + [x], target) == MatchCount(uuids, target) + (if x == target then 1 else 0)
  {
    assert (uuids + [x])[..|uuids|] == uuids;
  }

  /** Connected, and the write characteristic is known: the guard of every
      command write. */
  predicate Ready(s: ManagerState) {
    s.isConnected && s.writeCharacteristic.Some?
  }

  /** `connectedPeripheral?.writeValue(data, for: characteristic, ...)`:
      nothing is sent when there is no peripheral. */
  function WriteThrough(s: ManagerState, data: seq<UInt8>): seq<Action>
    requires s.writeCharacteristic.Some?
  {
    if s.connectedPeripheral.Some? then [WriteWithoutResponse(s.connectedPeripheral.value, s.writeCharacteristic.value, data)]
    else []
  }

  /** `cancelPeripheralConnection` on the peripheral, if there is one. */
  function CancelOf(p: Option<Peripheral>): seq<Action> {
    if p.Some? then [CancelConnection(p.value)] else []
  }

  function SavedOf(p: Peripheral): SavedDevice {
    SavedDevice(p.id, Some(p.name.GetOr(UnknownDeviceName)))
  }

  function RemoveTask(s: ManagerState, task: Task): (t: ManagerState)
    ensures Inv(s) ==> Inv(t)
  {
    s.(pending := s.pending - multiset{task})
  }

  // ---- Public operations ----

  function StartScanningNext(s: ManagerState): (t: ManagerState)
    ensures Inv(s) ==> Inv(t)
  {
    if s.centralState != PoweredOn then s
    else s.(discoveredDevices := [], transport := s.transport + [StartScan], connectionStatus := ScanningForDevices)
  }

  function StopScanningNext(s: ManagerState): (t: ManagerState)
    ensures Inv(s) ==> Inv(t)
  {
    s.(transport := s.transport + [StopScan],
       connectionStatus := if s.isConnected then s.connectionStatus else NotConnected)
  }

  function StartKeepAliveNext(s: ManagerState): (t: ManagerState)
    ensures Inv(s) ==> Inv(t)
  {
    s.(keepAliveTimer := s.writeCharacteristic.Some? && s.isConnected)
  }

  /** The steps shared by finding the device already connected and the
      connect callback: connected, remembered as the last device, and its
      services requested. */
  function MarkConnectedNext(s: ManagerState, p: Peripheral): (t: ManagerState)
    ensures Inv(s) ==> Inv(t)
  {
    s.(isConnecting := false, isConnected := true, connectionStatus := ConnectedToDevice,
       lastDevice := Some(SavedOf(p)), transport := s.transport + [DiscoverServices(p)])
  }

  function PerformConnectionNext(s: ManagerState, device: DiscoveredDevice): (t: ManagerState)
    ensures Inv(s) ==> Inv(t)
  {
    s.(isConnecting := true,
       connectedPeripheral := Some(device.peripheral),
       connectionTimer := Scheduled,
       transport := s.transport + [ConnectRequest(device.peripheral)],
       connectionStatus := ConnectingToDevice)
  }

  /** `connect(to:)`: stop scanning, then act on the state CoreBluetooth
      reports for the device's identifier. */
  function ConnectNext(s: ManagerState, device: DiscoveredDevice, retrieved: Option<Retrieved>): (t: ManagerState)
    ensures Inv(s) ==> Inv(t)
  {
    ConnectAfterStop(StopScanningNext(s), device, retrieved)
  }

  /** The branches of `connect(to:)` after scanning has stopped. */
  function ConnectAfterStop(t: ManagerState, device: DiscoveredDevice, retrieved: Option<Retrieved>): (u: ManagerState)
    ensures Inv(t) ==> Inv(u)
  {
    if retrieved.None? then PerformConnectionNext(t, device)
    else
      var p := retrieved.value.peripheral;
      match retrieved.value.state
      case Connected =>
        StartKeepAliveNext(MarkConnectedNext(t.(connectedPeripheral := Some(p)), p))
      case Connecting =>
        t.(connectedPeripheral := Some(p), isConnecting := true, connectionStatus := ConnectingToDevice)
      case Disconnecting =>
        t.(transport := t.transport + [CancelConnection(p)], pending := t.pending + multiset{DelayedConnect(device)})
      case Disconnected =>
        PerformConnectionNext(t, device)
  }

  function DisconnectNext(s: ManagerState): (t: ManagerState)
    ensures Inv(s) ==> Inv(t)
  {
    s.(connectionTimer := NoTimer, keepAliveTimer := false,
       transport := s.transport + CancelOf(s.connectedPeripheral),
       isConnecting := false, isConnected := false, connectionStatus := NotConnected,
       connectedPeripheral := None, writeCharacteristic := None)
  }

  /** The views setting the published `showAllDevices` flag: only the
      admission rule of later scan results changes. */
  function SetShowAllDevicesNext(s: ManagerState, value: bool): (t: ManagerState)
    ensures Inv(s) ==> Inv(t)
  {
    s.(showAllDevices := value)
  }

  /** `scanAndConnectToSavedDevice`: connect straight to the saved device
      when the central can retrieve it, otherwise scan. */
  function ScanAndConnectNext(s: ManagerState, retrieved: Option<Retrieved>): (t: ManagerState)
    ensures Inv(s) ==> Inv(t)
  {
    if s.lastDevice.None? || retrieved.None? then StartScanningNext(s)
    else ConnectNext(s, SavedDeviceEntry(s.lastDevice.value, retrieved.value.peripheral), retrieved)
  }

  /** The list entry `scanAndConnectToSavedDevice` builds for the saved
      device around the peripheral the central retrieved. */
  function SavedDeviceEntry(saved: SavedDevice, p: Peripheral): DiscoveredDevice {
    DiscoveredDevice(saved.id, saved.name.GetOr(SavedDeviceName), p)
  }

  function SetColorNext(s: ManagerState, r: int, g: int, b: int): (t: ManagerState)
    requires Ready(s) ==> InByteRange(r) && InByteRange(g) && InByteRange(b)
    ensures Inv(s) ==> Inv(t)
  {
    if !s.isConnected then s
    else if s.writeCharacteristic.None? then
      s.(transport := s.transport + if s.connectedPeripheral.Some? then [DiscoverServices(s.connectedPeripheral.value)] else [])
    else s.(transport := s.transport + WriteThrough(s, ColorLayout(r, g, b)), currentColor := RgbColor(r, g, b))
  }

  function SetBrightnessNext(s: ManagerState, level: int): (t: ManagerState)
    requires Ready(s) ==> 0 <= level <= 100
    ensures Inv(s) ==> Inv(t)
  {
    if !Ready(s) then s
    else s.(transport := s.transport + WriteThrough(s, BrightnessLayout(ScalePercent(level))), currentBrightness := level)
  }

  function PowerOnNext(s: ManagerState): (t: ManagerState)
    ensures Inv(s) ==> Inv(t)
  {
    if !Ready(s) then s else s.(transport := s.transport + WriteThrough(s, PowerOnLayout))
  }

  function PowerOffNext(s: ManagerState): (t: ManagerState)
    ensures Inv(s) ==> Inv(t)
  {
    if !Ready(s) then s else s.(transport := s.transport + WriteThrough(s, PowerOffLayout))
  }

  function WriteNext(s: ManagerState, bytes: seq<UInt8>): (t: ManagerState)
    ensures Inv(s) ==> Inv(t)
  {
    if !Ready(s) then s else s.(transport := s.transport + WriteThrough(s, bytes))
  }

  // ---- Timers and delayed closures ----

  /** The 30 s timer: acts only while still connecting. */
  function ConnectionTimeoutNext(s: ManagerState): (t: ManagerState)
    ensures Inv(s) ==> Inv(t)
  {
    var t := s.(connectionTimer := Fired);
    if !s.isConnecting then t
    else t.(transport := t.transport + CancelOf(s.connectedPeripheral), isConnecting := false,
            connectionStatus := ConnectionTimedOut, connectedPeripheral := None)
  }

  /** The brightness frame the keep-alive sends: the current level again. */
  function KeepAliveFrame(s: ManagerState): seq<UInt8>
    requires Inv(s)
  {
    BrightnessLayout(ScalePercent(s.currentBrightness))
  }

  /** One tick of the 2 s keep-alive timer: resend the brightness, or stop
      the timer when not connected or without a characteristic. */
  function KeepAliveTickNext(s: ManagerState): (t: ManagerState)
    requires Inv(s)
    ensures Inv(s) ==> Inv(t)
  {
    if !Ready(s) then s.(keepAliveTimer := false)
    else s.(transport := s.transport + WriteThrough(s, KeepAliveFrame(s)))
  }

  function InitialKeepAliveNext(s: ManagerState): (t: ManagerState)
    requires Inv(s)
    ensures Inv(s) ==> Inv(t)
  {
    var t := RemoveTask(s, InitialKeepAlive);
    if !Ready(t) then t else t.(transport := t.transport + WriteThrough(t, KeepAliveFrame(t)))
  }

  function DelayedConnectNext(s: ManagerState, device: DiscoveredDevice): (t: ManagerState)
    ensures Inv(s) ==> Inv(t)
  {
    PerformConnectionNext(RemoveTask(s, DelayedConnect(device)), device)
  }

  function ReconnectAfterTimeoutErrorNext(s: ManagerState, retrieved: Option<Retrieved>): (t: ManagerState)
    ensures Inv(s) ==> Inv(t)
  {
    ScanAndConnectNext(RemoveTask(s, ReconnectAfterTimeoutError), retrieved)
  }

  function ReconnectAfterDropNext(s: ManagerState, retrieved: Option<Retrieved>): (t: ManagerState)
    ensures Inv(s) ==> Inv(t)
  {
    var t := RemoveTask(s, ReconnectAfterDrop);
    if t.isConnected then t else ScanAndConnectNext(t, retrieved)
  }

  function RetryFailedConnectNext(s: ManagerState, id: Uuid, retrieved: Option<Retrieved>): (t: ManagerState)
    ensures Inv(s) ==> Inv(t)
  {
    var t := RemoveTask(s, RetryFailedConnect(id));
    if t.isConnected then t
    else match FirstWithId(t.discoveredDevices, id)
      case None => t
      case Some(device) => ConnectNext(t, device, retrieved)
  }

  // ---- Central manager callbacks ----

  function DidUpdateStateNext(s: ManagerState, state: CentralState, retrieved: Option<Retrieved>): (t: ManagerState)
    ensures Inv(s) ==> Inv(t)
  {
    var t := s.(centralState := state);
    match state
    case PoweredOn => ScanAndConnectNext(t, retrieved)
    case PoweredOff => t.(connectionStatus := BluetoothOff)
    case Unauthorized => t.(connectionStatus := BluetoothNeedsPermission)
    case Unsupported => t.(connectionStatus := BluetoothUnsupported)
    case _ => t
  }

  function DeviceOf(p: Peripheral): DiscoveredDevice {
    DiscoveredDevice(p.id, p.name.GetOr(UnknownDeviceName), p)
  }

  function DidDiscoverNext(s: ManagerState, p: Peripheral, advertisedServices: Option<seq<Uuid>>): (t: ManagerState)
    ensures Inv(s) ==> Inv(t)
  {
    if Admits(s.showAllDevices, p, advertisedServices) && !Listed(s.discoveredDevices, p.id)
    then s.(discoveredDevices := s.discoveredDevices + [DeviceOf(p)])
    else s
  }

  function DidConnectNext(s: ManagerState, p: Peripheral): (t: ManagerState)
    ensures Inv(s) ==> Inv(t)
  {
    MarkConnectedNext(s.(connectionTimer := NoTimer), p)
  }

  /** The resets shared by a failed connection and a disconnection: no
      timeout timer, neither connecting nor connected, no peripheral, and
      the given status. */
  function DropLinkNext(s: ManagerState, status: Status): (t: ManagerState)
    ensures Inv(s) ==> Inv(t)
  {
    s.(connectionTimer := NoTimer, isConnecting := false, isConnected := false,
       connectedPeripheral := None, connectionStatus := status)
  }

  /** What `disconnect()` and the disconnect callback both do: drop the
      link, stop the keep-alive and forget the characteristic. */
  function Teardown(s: ManagerState): (t: ManagerState)
    ensures Inv(s) ==> Inv(t)
  {
    DropLinkNext(s, NotConnected).(keepAliveTimer := false, writeCharacteristic := None)
  }

  function DidDisconnectNext(s: ManagerState, error: Option<BleError>): (t: ManagerState)
    ensures Inv(s) ==> Inv(t)
  {
    var t := Teardown(s);
    if error.None? then t.(pending := t.pending + multiset{ReconnectAfterDrop})
    else
      t.(connectionStatus := DisconnectedWithError(error.value.description),
         pending := if error.value.code == DisconnectTimeoutCode then t.pending + multiset{ReconnectAfterTimeoutError} else t.pending)
  }

  function DidFailToConnectNext(s: ManagerState, p: Peripheral, error: Option<BleError>): (t: ManagerState)
    ensures Inv(s) ==> Inv(t)
  {
    var t := DropLinkNext(s, ConnectionFailed);
    if error.Some? && error.value.code == ConnectRetryCode then t.(pending := t.pending + multiset{RetryFailedConnect(p.id)})
    else t
  }

  // ---- Peripheral callbacks ----

  /** One characteristic-discovery request per target service found. */
  function CharacteristicRequests(p: Peripheral, services: seq<Uuid>): seq<Action> {
    Repeat(DiscoverCharacteristics(p), MatchCount(services, ServiceUuid))
  }

  function DidDiscoverServicesNext(s: ManagerState, p: Peripheral, error: Option<BleError>, services: Option<seq<Uuid>>): (t: ManagerState)
    ensures Inv(s) ==> Inv(t)
  {
    if error.Some? || services.None? || |services.value| == 0 then s
    else s.(transport := s.transport + CharacteristicRequests(p, services.value))
  }

  /** The effect of finding the write characteristic `n` times: it is
      stored, the status says ready, the keep-alive starts if connected,
      and one initial keep-alive is scheduled per find. */
  function CharacteristicFound(s: ManagerState, p: Peripheral, n: nat): (t: ManagerState)
    ensures Inv(s) ==> Inv(t)
  {
    if n == 0 then s
    else s.(writeCharacteristic := Some(Characteristic(p.id, WriteCharacteristicUuid)),
            connectionStatus := ReadyForCommands,
            keepAliveTimer := s.isConnected,
            pending := s.pending[InitialKeepAlive := s.pending[InitialKeepAlive] + n])
  }

  /** One more find of the write characteristic, as the loop body does it. */
  lemma CharacteristicFoundStep(s: ManagerState, p: Peripheral, n: nat)
    ensures CharacteristicFound(s, p, n + 1) ==
            var t := CharacteristicFound(s, p, n);
            t.(writeCharacteristic := Some(Characteristic(p.id, WriteCharacteristicUuid)),
               connectionStatus := ReadyForCommands,
               keepAliveTimer := t.isConnected,
               pending := t.pending + multiset{InitialKeepAlive})
  {
  }

  function DidDiscoverCharacteristicsNext(s: ManagerState, p: Peripheral, error: Option<BleError>, characteristics: Option<seq<Uuid>>): (t: ManagerState)
    ensures Inv(s) ==> Inv(t)
  {
    if error.Some? || characteristics.None? || |characteristics.value| == 0 then s
    else
      var n := MatchCount(characteristics.value, WriteCharacteristicUuid);
      if n == 0 then s.(connectionStatus := WriteCharacteristicMissing)
      else CharacteristicFound(s, p, n)
  }

  // ---- Policies ----

  /** A discovered peripheral is added at the end exactly when it is
      admitted and its id is not listed yet; ids stay distinct. */
  lemma DiscoveryKeepsIdsDistinct(s: ManagerState, p: Peripheral, advertised: Option<seq<Uuid>>)
    requires DistinctIds(s.discoveredDevices)
    ensures var t := DidDiscoverNext(s, p, advertised);
      && DistinctIds(t.discoveredDevices)
      && (Listed(t.discoveredDevices, p.id) <==> Listed(s.discoveredDevices, p.id) || Admits(s.showAllDevices, p, advertised))
      && t.discoveredDevices == if Admits(s.showAllDevices, p, advertised) && !Listed(s.discoveredDevices, p.id)
                                then s.discoveredDevices + [DeviceOf(p)] else s.discoveredDevices
  {
    var t := DidDiscoverNext(s, p, advertised);
    if Admits(s.showAllDevices, p, advertised) && !Listed(s.discoveredDevices, p.id) {
      var n := |s.discoveredDevices|;
      assert t.discoveredDevices[n].id == p.id;
      forall i | 0 <= i < n ensures t.discoveredDevices[i] == s.discoveredDevices[i] { }
    } else if Listed(t.discoveredDevices, p.id) {
      assert t == s;
    }
  }

  /** Scanning needs a powered-on central; it then starts from an empty
      list. */
  lemma ScanningNeedsPower(s: ManagerState)
    ensures s.centralState != PoweredOn ==> StartScanningNext(s) == s
    ensures s.centralState == PoweredOn ==>
      StartScanningNext(s).discoveredDevices == [] &&
      StartScanningNext(s).transport == s.transport + [StartScan] &&
      StartScanningNext(s).connectionStatus == ScanningForDevices
  {
  }

  /** `connect(to:)` always stops the scan before anything else. */
  lemma ConnectStopsScanFirst(s: ManagerState, device: DiscoveredDevice, retrieved: Option<Retrieved>)
    ensures var t := ConnectNext(s, device, retrieved);
      && |t.transport| > |s.transport|
      && t.transport[..|s.transport| + 1] == s.transport + [StopScan]
  {
    var u := StopScanningNext(s).transport;
    var t := ConnectNext(s, device, retrieved).transport;
    var suffix: seq<Action>;
    if retrieved.None? || retrieved.value.state == Disconnected {
      suffix := [ConnectRequest(device.peripheral)];
    } else if retrieved.value.state == Connected {
      suffix := [DiscoverServices(retrieved.value.peripheral)];
    } else if retrieved.value.state == Connecting {
      suffix := [];
    } else {
      suffix := [CancelConnection(retrieved.value.peripheral)];
    }
    assert t == u + suffix;
    assert (u + suffix)[..|u|] == u;
  }

  /** A device the central does not know, or knows as disconnected, gets a
      connect request with the 30 s timeout armed. */
  lemma ConnectRequestsLink(s: ManagerState, device: DiscoveredDevice, retrieved: Option<Retrieved>)
    requires retrieved.None? || retrieved.value.state == Disconnected
    ensures var t := ConnectNext(s, device, retrieved);
      && t.isConnecting && t.connectedPeripheral == Some(device.peripheral)
      && t.connectionTimer == Scheduled && t.connectionStatus == ConnectingToDevice
      && t.transport == s.transport + [StopScan, ConnectRequest(device.peripheral)]
  {
  }

  /** A link that is already up is reused: no connect request, the
      timeout timer untouched, the services asked for again. */
  lemma ConnectReusesLink(s: ManagerState, device: DiscoveredDevice, p: Peripheral)
    ensures var t := ConnectNext(s, device, Some(Retrieved(p, Connected)));
      && t.isConnected && !t.isConnecting && t.connectedPeripheral == Some(p)
      && t.connectionTimer == s.connectionTimer && t.lastDevice == Some(SavedOf(p))
      && t.transport == s.transport + [StopScan, DiscoverServices(p)]
      && t.keepAliveTimer == s.writeCharacteristic.Some?
  {
  }

  /** A link being set up is waited on; one being torn down is cancelled
      and a fresh attempt scheduled for later. */
  lemma ConnectWaitsOrRetries(s: ManagerState, device: DiscoveredDevice, p: Peripheral)
    ensures var t := ConnectNext(s, device, Some(Retrieved(p, Connecting)));
      && t.isConnecting && t.connectedPeripheral == Some(p)
      && t.transport == s.transport + [StopScan] && t.connectionTimer == s.connectionTimer
    ensures var t := ConnectNext(s, device, Some(Retrieved(p, Disconnecting)));
      && t.transport == s.transport + [StopScan, CancelConnection(p)]
      && t.pending == s.pending + multiset{DelayedConnect(device)}
      && t.isConnecting == s.isConnecting && t.connectedPeripheral == s.connectedPeripheral
  {
  }

  /** Stopping the scan asks CoreBluetooth to stop, and reports "not
      connected" unless a link is up. */
  lemma StopScanningPolicy(s: ManagerState)
    ensures var t := StopScanningNext(s);
      && t.transport == s.transport + [StopScan]
      && t.connectionStatus == (if s.isConnected then s.connectionStatus else NotConnected)
      && t.(transport := s.transport, connectionStatus := s.connectionStatus) == s
  {
  }

  /** A powered-on central reconnects to the saved device; powered off,
      unauthorized and unsupported only report their status; any other
      state changes nothing but the recorded central state. */
  lemma DidUpdateStatePolicy(s: ManagerState, state: CentralState, retrieved: Option<Retrieved>)
    ensures var u := s.(centralState := state);
      && (state == PoweredOn ==> DidUpdateStateNext(s, state, retrieved) == ScanAndConnectNext(u, retrieved))
      && (state == PoweredOff ==> DidUpdateStateNext(s, state, retrieved) == u.(connectionStatus := BluetoothOff))
      && (state == Unauthorized ==> DidUpdateStateNext(s, state, retrieved) == u.(connectionStatus := BluetoothNeedsPermission))
      && (state == Unsupported ==> DidUpdateStateNext(s, state, retrieved) == u.(connectionStatus := BluetoothUnsupported))
      && (state == Unknown || state == Resetting ==> DidUpdateStateNext(s, state, retrieved) == u)
  {
  }

  /** The connect callback marks the link up, saves the device and asks
      for its services; the keep-alive waits for the characteristic. */
  lemma DidConnectPolicy(s: ManagerState, p: Peripheral)
    ensures var t := DidConnectNext(s, p);
      && t.isConnected && !t.isConnecting && t.connectionStatus == ConnectedToDevice
      && t.lastDevice == Some(SavedOf(p)) && t.lastDevice.value.id == p.id
      && t.transport == s.transport + [DiscoverServices(p)]
      && t.keepAliveTimer == s.keepAliveTimer && t.writeCharacteristic == s.writeCharacteristic
      && t.connectedPeripheral == s.connectedPeripheral && t.pending == s.pending
  {
  }

  /** Once the link is up the timeout timer is gone, and even a timer that
      did fire would find nothing being connected and change nothing but
      itself. */
  lemma ConnectedLinkSurvivesTimeout(s: ManagerState, p: Peripheral)
    ensures DidConnectNext(s, p).connectionTimer == NoTimer
    ensures ConnectionTimeoutNext(DidConnectNext(s, p)) == DidConnectNext(s, p).(connectionTimer := Fired)
  {
  }

  /** A timeout while connecting abandons the attempt and cancels it. */
  lemma TimeoutAbandonsAttempt(s: ManagerState)
    requires s.isConnecting
    ensures var t := ConnectionTimeoutNext(s);
      && !t.isConnecting && t.connectedPeripheral.None? && t.connectionStatus == ConnectionTimedOut
      && t.transport == s.transport + CancelOf(s.connectedPeripheral)
      && t.isConnected == s.isConnected && t.pending == s.pending
  {
  }

  /** `disconnect()` leaves nothing connected, nothing running and no
      reconnection scheduled. */
  lemma DisconnectTearsDown(s: ManagerState)
    ensures var t := DisconnectNext(s);
      && !t.isConnected && !t.isConnecting && t.connectedPeripheral.None? && t.writeCharacteristic.None?
      && t.connectionTimer == NoTimer && !t.keepAliveTimer && t.connectionStatus == NotConnected
      && t.pending == s.pending && !Ready(t)
      && t.transport == s.transport + CancelOf(s.connectedPeripheral)
  {
  }

  /** A lost link is torn down like `disconnect()`; a reconnection is
      scheduled exactly when there was no error or the error code is 6. */
  lemma DisconnectCallbackPolicy(s: ManagerState, error: Option<BleError>)
    ensures var t := DidDisconnectNext(s, error);
      && !t.isConnected && !t.isConnecting && t.connectedPeripheral.None? && t.writeCharacteristic.None?
      && t.connectionTimer == NoTimer && !t.keepAliveTimer && t.transport == s.transport
      && t.connectionStatus == (if error.None? then NotConnected else DisconnectedWithError(error.value.description))
    ensures var t := DidDisconnectNext(s, error);
      (|t.pending| == |s.pending| + 1) <==> (error.None? || error.value.code == DisconnectTimeoutCode)
    ensures var t := DidDisconnectNext(s, error);
      t.pending == s.pending
        + (if error.None? then multiset{ReconnectAfterDrop} else multiset{})
        + (if error.Some? && error.value.code == DisconnectTimeoutCode then multiset{ReconnectAfterTimeoutError} else multiset{})
  {
  }

  /** The reconnection after a silent drop does nothing if the link came
      back meanwhile; the one after error 6 always goes ahead. */
  lemma ReconnectGuards(s: ManagerState, retrieved: Option<Retrieved>)
    ensures s.isConnected ==> ReconnectAfterDropNext(s, retrieved) == RemoveTask(s, ReconnectAfterDrop)
    ensures !s.isConnected ==>
      ReconnectAfterDropNext(s, retrieved) == ScanAndConnectNext(RemoveTask(s, ReconnectAfterDrop), retrieved)
    ensures ReconnectAfterTimeoutErrorNext(s, retrieved) == ScanAndConnectNext(RemoveTask(s, ReconnectAfterTimeoutError), retrieved)
  {
  }

  /** Reconnecting to the saved device scans when nothing is saved or the
      central cannot retrieve it, and otherwise connects to it under its
      saved identity. */
  lemma SavedDevicePolicy(s: ManagerState, retrieved: Option<Retrieved>)
    ensures s.lastDevice.None? || retrieved.None? ==> ScanAndConnectNext(s, retrieved) == StartScanningNext(s)
    ensures s.lastDevice.Some? && retrieved.Some? ==>
      var d := SavedDeviceEntry(s.lastDevice.value, retrieved.value.peripheral);
      && d.id == s.lastDevice.value.id && d.peripheral == retrieved.value.peripheral
      && d.name == s.lastDevice.value.name.GetOr(SavedDeviceName)
      && ScanAndConnectNext(s, retrieved) == ConnectNext(s, d, retrieved)
  {
  }

  /** A failed connection attempt is abandoned (keep-alive and
      characteristic are left as they were) and retried exactly when the
      error code is 10. */
  lemma FailedConnectPolicy(s: ManagerState, p: Peripheral, error: Option<BleError>)
    ensures var t := DidFailToConnectNext(s, p, error);
      && !t.isConnected && !t.isConnecting && t.connectedPeripheral.None? && t.connectionTimer == NoTimer
      && t.connectionStatus == ConnectionFailed && t.transport == s.transport
      && t.keepAliveTimer == s.keepAliveTimer && t.writeCharacteristic == s.writeCharacteristic
    ensures var t := DidFailToConnectNext(s, p, error);
      t.pending == if error.Some? && error.value.code == ConnectRetryCode
                   then s.pending + multiset{RetryFailedConnect(p.id)} else s.pending
  {
  }

  /** The retry after a failed connection reconnects only while not
      connected, and only to the first listed device with that id. */
  lemma RetryPolicy(s: ManagerState, id: Uuid, retrieved: Option<Retrieved>)
    ensures s.isConnected || !Listed(s.discoveredDevices, id) ==>
      RetryFailedConnectNext(s, id, retrieved) == RemoveTask(s, RetryFailedConnect(id))
    ensures !s.isConnected && Listed(s.discoveredDevices, id) ==>
      var d := FirstWithId(s.discoveredDevices, id).value;
      d.id == id && RetryFailedConnectNext(s, id, retrieved) == ConnectNext(RemoveTask(s, RetryFailedConnect(id)), d, retrieved)
  {
  }

  /** Without a link and a write characteristic the commands do nothing,
      except that a colour asked for on a link still without its
      characteristic restarts service discovery. */
  lemma CommandsNeedReadyLink(s: ManagerState, r: int, g: int, b: int, level: int, bytes: seq<UInt8>)
    requires !Ready(s)
    ensures SetBrightnessNext(s, level) == s && PowerOnNext(s) == s && PowerOffNext(s) == s && WriteNext(s, bytes) == s
    ensures !s.isConnected ==> SetColorNext(s, r, g, b) == s
    ensures s.isConnected ==>
      SetColorNext(s, r, g, b) == s.(transport := s.transport + if s.connectedPeripheral.Some? then [DiscoverServices(s.connectedPeripheral.value)] else [])
  {
  }

  /** On a ready link each command writes, without response, the frame the
      shared Kotlin builder produces, reinterpreted as unsigned bytes; the
      brightness is scaled from a percentage first. Colour and brightness
      are remembered even when no peripheral is there to write to. */
  lemma CommandsWriteKotlinFrames(s: ManagerState, r: int, g: int, b: int, level: int)
    requires Ready(s)
    requires InByteRange(r) && InByteRange(g) && InByteRange(b) && 0 <= level <= 100
    ensures var w := if s.connectedPeripheral.Some?
                     then (data: seq<UInt8>) => [WriteWithoutResponse(s.connectedPeripheral.value, s.writeCharacteristic.value, data)]
                     else (data: seq<UInt8>) => [];
      && SetColorNext(s, r, g, b) == s.(transport := s.transport + w(Unsigned(BuildColorCommand(r, g, b).value)), currentColor := RgbColor(r, g, b))
      && SetBrightnessNext(s, level) == s.(transport := s.transport + w(Unsigned(BuildBrightnessCommand(ScalePercent(level)).value)), currentBrightness := level)
      && PowerOnNext(s) == s.(transport := s.transport + w(Unsigned(BuildPowerOnCommand())))
      && PowerOffNext(s) == s.(transport := s.transport + w(Unsigned(BuildPowerOffCommand())))
  {
  }

  /** Finding the write characteristic makes the link ready, starts the
      keep-alive if connected and schedules one initial write per find;
      not finding it only changes the status. */
  lemma CharacteristicPolicy(s: ManagerState, p: Peripheral, characteristics: seq<Uuid>)
    requires |characteristics| > 0
    ensures var t := DidDiscoverCharacteristicsNext(s, p, None, Some(characteristics));
      WriteCharacteristicUuid in characteristics ==>
        && t.writeCharacteristic == Some(Characteristic(p.id, WriteCharacteristicUuid))
        && t.connectionStatus == ReadyForCommands && t.keepAliveTimer == s.isConnected
        && t.pending[InitialKeepAlive] == s.pending[InitialKeepAlive] + MatchCount(characteristics, WriteCharacteristicUuid)
        && (s.isConnected ==> Ready(t))
    ensures WriteCharacteristicUuid !in characteristics ==>
      DidDiscoverCharacteristicsNext(s, p, None, Some(characteristics)) == s.(connectionStatus := WriteCharacteristicMissing)
  {
  }

  /** Service discovery asks for the characteristics of each target
      service found, and of nothing else. */
  lemma ServicePolicy(s: ManagerState, p: Peripheral, services: seq<Uuid>)
    requires |services| > 0
    ensures var t := DidDiscoverServicesNext(s, p, None, Some(services));
      && t.transport == s.transport + CharacteristicRequests(p, services)
      && (|t.transport| == |s.transport| <==> ServiceUuid !in services)
  {
  }

  /** The keep-alive resends the current brightness while the link is
      ready, and stops itself otherwise. */
  lemma KeepAlivePolicy(s: ManagerState)
    requires Inv(s)
    ensures StartKeepAliveNext(s).keepAliveTimer <==> Ready(s)
    ensures !Ready(s) ==> KeepAliveTickNext(s) == s.(keepAliveTimer := false)
    ensures Ready(s) ==>
      KeepAliveTickNext(s) == s.(transport := s.transport + WriteThrough(s, Unsigned(BuildBrightnessCommand(ScalePercent(s.currentBrightness)).value)))
  {
  }
}
