/** `LedBleManager`: the CoreBluetooth central that finds the LED strip,
    connects to it, finds its write characteristic and sends it the frames
    built by the shared controller. Every method is proved to move the
    object's state exactly as the matching transition function of
    `BleState` says, and to keep `Valid()`. */
module LedBle {
  import opened Wrappers
  import opened Checks
  import opened Bytes
  import opened Rgb
  import opened CommandBuilder
  import opened SharedController
  import opened KotlinExtensions
  import opened BleDevices
  import opened BleState

  class LedBleManager {
    var isConnected: bool
    var isConnecting: bool
    var currentColor: RgbColor
    var currentBrightness: int
    var discoveredDevices: seq<DiscoveredDevice>
    var connectionStatus: Status
    var showAllDevices: bool
    /** `centralManager.state`. */
    var centralState: CentralState
    var connectedPeripheral: Option<Peripheral>
    var writeCharacteristic: Option<Characteristic>
    var connectionTimer: TimerRef
    /** Whether the repeating keep-alive timer is scheduled. */
    var keepAliveTimer: bool
    /** The last device kept in `UserDefaults`. */
    var lastDevice: Option<SavedDevice>
    /** The requests handed to CoreBluetooth so far, oldest first. */
    var transport: seq<Action>
    /** The `asyncAfter` closures scheduled and not yet run. */
    var pending: multiset<Task>

    function State(): ManagerState
      reads this
    {
      ManagerState(isConnected, isConnecting, currentColor, currentBrightness, discoveredDevices,
                   connectionStatus, showAllDevices, centralState, connectedPeripheral,
                   writeCharacteristic, connectionTimer, keepAliveTimer, lastDevice, transport, pending)
    }

    predicate Valid()
      reads this
    {
      Inv(State())
    }

    constructor(saved: Option<SavedDevice>)
      ensures Valid()
      ensures State() == Initial(saved)
    {
      isConnected := false;
      isConnecting := false;
      currentColor := RgbColor(255, 255, 255);
      currentBrightness := 100;
      discoveredDevices := [];
      connectionStatus := NotConnected;
      showAllDevices := false;
      centralState := Unknown;
      connectedPeripheral := None;
      writeCharacteristic := None;
      connectionTimer := NoTimer;
      keepAliveTimer := false;
      lastDevice := saved;
      transport := [];
      pending := multiset{};
    }

    // ---- Public operations ----

    method StartScanning()
      requires Valid()
      modifies this
      ensures Valid()
      ensures State() == StartScanningNext(old(State()))
    {
      if centralState != PoweredOn {
        return;
      }
      discoveredDevices := [];
      transport := transport + [StartScan];
      connectionStatus := ScanningForDevices;
    }

    method StopScanning()
      requires Valid()
      modifies this
      ensures Valid()
      ensures State() == StopScanningNext(old(State()))
    {
      transport := transport + [StopScan];
      if !isConnected {
        connectionStatus := NotConnected;
      }
    }

    /** Connects to `device`; `retrieved` is the central's answer for the
        device's identifier. */
    method Connect(device: DiscoveredDevice, retrieved: Option<Retrieved>)
      requires Valid()
      modifies this
      ensures Valid()
      ensures State() == ConnectNext(old(State()), device, retrieved)
    {
      StopScanning();
      if retrieved.Some? {
        var peripheral := retrieved.value.peripheral;
        match retrieved.value.state
        case Connected =>
          connectedPeripheral := Some(peripheral);
          MarkConnected(peripheral);
          StartKeepAlive();
          return;
        case Connecting =>
          connectedPeripheral := Some(peripheral);
          isConnecting := true;
          connectionStatus := ConnectingToDevice;
          return;
        case Disconnecting =>
          transport := transport + [CancelConnection(peripheral)];
          pending := pending + multiset{DelayedConnect(device)};
          return;
        case Disconnected =>
      }
      PerformConnection(device);
    }

    method PerformConnection(device: DiscoveredDevice)
      requires Valid()
      modifies this
      ensures Valid()
      ensures State() == PerformConnectionNext(old(State()), device)
    {
      isConnecting := true;
      connectedPeripheral := Some(device.peripheral);
      connectionTimer := Scheduled;
      transport := transport + [ConnectRequest(device.peripheral)];
      connectionStatus := ConnectingToDevice;
    }

    method Disconnect()
      requires Valid()
      modifies this
      ensures Valid()
      ensures State() == DisconnectNext(old(State()))
    {
      if connectedPeripheral.Some? {
        transport := transport + [CancelConnection(connectedPeripheral.value)];
      }
      ClearConnection();
    }

    /** The resets `disconnect()` and the disconnect callback share: both
        timers stopped, no peripheral, no characteristic, not connected. */
    method ClearConnection()
      requires Valid()
      modifies this
      ensures Valid()
      ensures State() == Teardown(old(State()))
    {
      DropLink(NotConnected);
      StopKeepAlive();
      writeCharacteristic := None;
    }

    method DropLink(status: Status)
      requires Valid()
      modifies this
      ensures Valid()
      ensures State() == DropLinkNext(old(State()), status)
    {
      connectionTimer := NoTimer;
      isConnecting := false;
      isConnected := false;
      connectedPeripheral := None;
      connectionStatus := status;
    }

    method StartKeepAlive()
      requires Valid()
      modifies this
      ensures Valid()
      ensures State() == StartKeepAliveNext(old(State()))
    {
      StopKeepAlive();
      if writeCharacteristic.None? || !isConnected {
        return;
      }
      keepAliveTimer := true;
    }

    method StopKeepAlive()
      requires Valid()
      modifies this
      ensures Valid()
      ensures State() == old(State()).(keepAliveTimer := false)
    {
      keepAliveTimer := false;
    }

    /** `scanAndConnectToSavedDevice`; `retrieved` is the central's answer
        for the saved identifier. */
    method ScanAndConnectToSavedDevice(retrieved: Option<Retrieved>)
      requires Valid()
      modifies this
      ensures Valid()
      ensures State() == ScanAndConnectNext(old(State()), retrieved)
    {
      if lastDevice.None? || retrieved.None? {
        StartScanning();
        return;
      }
      var device := SavedDeviceEntry(lastDevice.value, retrieved.value.peripheral);
      Connect(device, retrieved);
    }

    /** A view writing the published `showAllDevices` property. */
    method SetShowAllDevices(value: bool)
      requires Valid()
      modifies this
      ensures Valid()
      ensures State() == SetShowAllDevicesNext(old(State()), value)
    {
      showAllDevices := value;
    }

    method SetColor(r: int, g: int, b: int)
      requires Valid()
      requires Ready(State()) ==> InByteRange(r) && InByteRange(g) && InByteRange(b)
      modifies this
      ensures Valid()
      ensures State() == SetColorNext(old(State()), r, g, b)
    {
      if !isConnected {
        return;
      }
      if writeCharacteristic.None? {
        if connectedPeripheral.Some? {
          transport := transport + [DiscoverServices(connectedPeripheral.value)];
        }
        return;
      }
      var kotlinBytes := GetColorCommandBytesRgb(r, g, b).value;
      var data := ToData(kotlinBytes);
      WriteValue(data);
      currentColor := RgbColor(r, g, b);
    }

    method SetBrightness(level: int)
      requires Valid()
      requires Ready(State()) ==> 0 <= level <= 100
      modifies this
      ensures Valid()
      ensures State() == SetBrightnessNext(old(State()), level)
    {
      if !isConnected || writeCharacteristic.None? {
        return;
      }
      var data := BrightnessData(level);
      WriteValue(data);
      currentBrightness := level;
    }

    method PowerOn()
      requires Valid()
      modifies this
      ensures Valid()
      ensures State() == PowerOnNext(old(State()))
    {
      if !isConnected || writeCharacteristic.None? {
        return;
      }
      var data := ToData(GetPowerOnCommandBytes());
      WriteValue(data);
    }

    method PowerOff()
      requires Valid()
      modifies this
      ensures Valid()
      ensures State() == PowerOffNext(old(State()))
    {
      if !isConnected || writeCharacteristic.None? {
        return;
      }
      var data := ToData(GetPowerOffCommandBytes());
      WriteValue(data);
    }

    method Write(bytes: seq<UInt8>)
      requires Valid()
      modifies this
      ensures Valid()
      ensures State() == WriteNext(old(State()), bytes)
    {
      if !isConnected || writeCharacteristic.None? {
        return;
      }
      WriteValue(bytes);
    }

    /** `connectedPeripheral?.writeValue(data, for: characteristic, type: .withoutResponse)`. */
    method WriteValue(data: seq<UInt8>)
      requires Valid() && writeCharacteristic.Some?
      modifies this
      ensures Valid()
      ensures State() == old(State()).(transport := old(State()).transport + WriteThrough(old(State()), data))
    {
      if connectedPeripheral.Some? {
        transport := transport + [WriteWithoutResponse(connectedPeripheral.value, writeCharacteristic.value, data)];
      }
    }

    /** The bytes of the brightness command for a percentage, through the
        shared controller and `toData()`. */
    static method BrightnessData(level: int) returns (data: seq<UInt8>)
      requires 0 <= level <= 100
      ensures data == BrightnessLayout(ScalePercent(level))
    {
      var brightnessValue := level * 255 / 100;
      var kotlinBytes := GetBrightnessCommandBytes(brightnessValue).value;
      data := ToData(kotlinBytes);
    }

    method SaveLastDevice(p: Peripheral)
      requires Valid()
      modifies this
      ensures Valid()
      ensures State() == old(State()).(lastDevice := Some(SavedOf(p)))
    {
      lastDevice := Some(SavedDevice(p.id, Some(p.name.GetOr(UnknownDeviceName))));
    }

    // ---- Timers and delayed closures ----

    method ConnectionTimeout()
      requires Valid() && connectionTimer == Scheduled
      modifies this
      ensures Valid()
      ensures State() == ConnectionTimeoutNext(old(State()))
    {
      connectionTimer := Fired;
      if !isConnecting {
        return;
      }
      if connectedPeripheral.Some? {
        transport := transport + [CancelConnection(connectedPeripheral.value)];
      }
      isConnecting := false;
      connectionStatus := ConnectionTimedOut;
      connectedPeripheral := None;
    }

    method KeepAliveTick()
      requires Valid() && keepAliveTimer
      modifies this
      ensures Valid()
      ensures State() == KeepAliveTickNext(old(State()))
    {
      if !isConnected || writeCharacteristic.None? {
        StopKeepAlive();
        return;
      }
      var data := BrightnessData(currentBrightness);
      WriteValue(data);
    }

    method RunInitialKeepAlive()
      requires Valid() && InitialKeepAlive in pending
      modifies this
      ensures Valid()
      ensures State() == InitialKeepAliveNext(old(State()))
    {
      pending := pending - multiset{InitialKeepAlive};
      if !isConnected {
        return;
      }
      if writeCharacteristic.Some? {
        var data := BrightnessData(currentBrightness);
        WriteValue(data);
      }
    }

    method RunDelayedConnect(device: DiscoveredDevice)
      requires Valid() && DelayedConnect(device) in pending
      modifies this
      ensures Valid()
      ensures State() == DelayedConnectNext(old(State()), device)
    {
      pending := pending - multiset{DelayedConnect(device)};
      PerformConnection(device);
    }

    method RunReconnectAfterTimeoutError(retrieved: Option<Retrieved>)
      requires Valid() && ReconnectAfterTimeoutError in pending
      modifies this
      ensures Valid()
      ensures State() == ReconnectAfterTimeoutErrorNext(old(State()), retrieved)
    {
      pending := pending - multiset{ReconnectAfterTimeoutError};
      ScanAndConnectToSavedDevice(retrieved);
    }

    method RunReconnectAfterDrop(retrieved: Option<Retrieved>)
      requires Valid() && ReconnectAfterDrop in pending
      modifies this
      ensures Valid()
      ensures State() == ReconnectAfterDropNext(old(State()), retrieved)
    {
      pending := pending - multiset{ReconnectAfterDrop};
      if isConnected {
        return;
      }
      ScanAndConnectToSavedDevice(retrieved);
    }

    method RunRetryFailedConnect(id: Uuid, retrieved: Option<Retrieved>)
      requires Valid() && RetryFailedConnect(id) in pending
      modifies this
      ensures Valid()
      ensures State() == RetryFailedConnectNext(old(State()), id, retrieved)
    {
      pending := pending - multiset{RetryFailedConnect(id)};
      if isConnected {
        return;
      }
      var found := FirstWithId(discoveredDevices, id);
      if found.Some? {
        Connect(found.value, retrieved);
      }
    }

    // ---- Central manager callbacks ----

    method DidUpdateState(state: CentralState, retrieved: Option<Retrieved>)
      requires Valid()
      modifies this
      ensures Valid()
      ensures State() == DidUpdateStateNext(old(State()), state, retrieved)
    {
      centralState := state;
      match state
      case PoweredOn => ScanAndConnectToSavedDevice(retrieved);
      case PoweredOff => connectionStatus := BluetoothOff;
      case Unauthorized => connectionStatus := BluetoothNeedsPermission;
      case Unsupported => connectionStatus := BluetoothUnsupported;
      case _ =>
    }

    method DidDiscover(p: Peripheral, advertisedServices: Option<seq<Uuid>>)
      requires Valid()
      modifies this
      ensures Valid()
      ensures State() == DidDiscoverNext(old(State()), p, advertisedServices)
    {
      var hasServiceUuid := advertisedServices.Some? && ServiceUuid in advertisedServices.value;
      var matchesName := IsTargetDevice(p.name);
      if showAllDevices || hasServiceUuid || matchesName {
        var device := DiscoveredDevice(p.id, p.name.GetOr(UnknownDeviceName), p);
        if !Listed(discoveredDevices, device.id) {
          discoveredDevices := discoveredDevices + [device];
        }
      }
    }

    method DidConnect(p: Peripheral)
      requires Valid()
      modifies this
      ensures Valid()
      ensures State() == DidConnectNext(old(State()), p)
    {
      connectionTimer := NoTimer;
      MarkConnected(p);
    }

    method MarkConnected(p: Peripheral)
      requires Valid()
      modifies this
      ensures Valid()
      ensures State() == MarkConnectedNext(old(State()), p)
    {
      isConnecting := false;
      isConnected := true;
      connectionStatus := ConnectedToDevice;
      SaveLastDevice(p);
      transport := transport + [DiscoverServices(p)];
    }

    method DidDisconnect(p: Peripheral, error: Option<BleError>)
      requires Valid()
      modifies this
      ensures Valid()
      ensures State() == DidDisconnectNext(old(State()), error)
    {
      ClearConnection();
      if error.Some? {
        connectionStatus := DisconnectedWithError(error.value.description);
        if error.value.code == DisconnectTimeoutCode {
          pending := pending + multiset{ReconnectAfterTimeoutError};
        }
      } else {
        pending := pending + multiset{ReconnectAfterDrop};
      }
    }

    method DidFailToConnect(p: Peripheral, error: Option<BleError>)
      requires Valid()
      modifies this
      ensures Valid()
      ensures State() == DidFailToConnectNext(old(State()), p, error)
    {
      DropLink(ConnectionFailed);
      if error.Some? && error.value.code == ConnectRetryCode {
        pending := pending + multiset{RetryFailedConnect(p.id)};
      }
    }

    // ---- Peripheral callbacks ----

    /** `services` is `peripheral.services`, by UUID. */
    method DidDiscoverServices(p: Peripheral, error: Option<BleError>, services: Option<seq<Uuid>>)
      requires Valid()
      modifies this
      ensures Valid()
      ensures State() == DidDiscoverServicesNext(old(State()), p, error, services)
    {
      if error.Some? {
        return;
      }
      if services.None? || |services.value| == 0 {
        return;
      }
      var list := services.value;
      var requests := [];
      for i := 0 to |list|
        invariant requests == CharacteristicRequests(p, list[..i])
      {
        assert list[..i + 1][..i] == list[..i];
        if list[i] == ServiceUuid {
          requests := requests + [DiscoverCharacteristics(p)];
        }
      }
      assert list[..|list|] == list;
      transport := transport + requests;
    }

    /** `characteristics` is `service.characteristics`, by UUID. */
    method DidDiscoverCharacteristics(p: Peripheral, error: Option<BleError>, characteristics: Option<seq<Uuid>>)
      requires Valid()
      modifies this
      ensures Valid()
      ensures State() == DidDiscoverCharacteristicsNext(old(State()), p, error, characteristics)
    {
      if error.Some? {
        return;
      }
      if characteristics.None? || |characteristics.value| == 0 {
        return;
      }
      var list := characteristics.value;
      var foundTargetCharacteristic := false;
      for i := 0 to |list|
        invariant Valid()
        invariant foundTargetCharacteristic <==> MatchCount(list[..i], WriteCharacteristicUuid) > 0
        invariant State() == CharacteristicFound(old(State()), p, MatchCount(list[..i], WriteCharacteristicUuid))
      {
        assert list[..i + 1][..i] == list[..i];
        if list[i] == WriteCharacteristicUuid {
          CharacteristicFoundStep(old(State()), p, MatchCount(list[..i], WriteCharacteristicUuid));
          UseWriteCharacteristic(Characteristic(p.id, list[i]));
          foundTargetCharacteristic := true;
        }
      }
      assert list[..|list|] == list;
      if !foundTargetCharacteristic {
        connectionStatus := WriteCharacteristicMissing;
      }
    }

    /** What finding the write characteristic does: store it, report
        ready, start the keep-alive and schedule one immediate write. */
    method UseWriteCharacteristic(characteristic: Characteristic)
      requires Valid() && characteristic.uuid == WriteCharacteristicUuid
      modifies this
      ensures Valid()
      ensures State() == old(State()).(writeCharacteristic := Some(characteristic),
                                       connectionStatus := ReadyForCommands,
                                       keepAliveTimer := old(isConnected),
                                       pending := old(pending) + multiset{InitialKeepAlive})
    {
      writeCharacteristic := Some(characteristic);
      connectionStatus := ReadyForCommands;
      StartKeepAlive();
      pending := pending + multiset{InitialKeepAlive};
    }
  }
}
