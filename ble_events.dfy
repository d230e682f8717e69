/** Everything that can happen to `LedBleManager`, as events on the
    state of `BleState`, and what holds of every event and of every run:
    the invariant, the request log only growing, no frame written unless
    the link is ready, and the brightness set only by `setBrightness`. */
module BleEvents {
  import opened Wrappers
  import opened Checks
  import opened Bytes
  import opened BleDevices
  import opened BleState

  /** A call from the app about scanning and the connection, or a view
      setting the "show all devices" flag. */
  datatype Call =
    | StartScanningCall
    | StopScanningCall
    | ConnectCall(device: DiscoveredDevice, retrieved: Option<Retrieved>)
    | DisconnectCall
    | ScanAndConnectCall(retrieved: Option<Retrieved>)
    | SetShowAllDevices(value: bool)

  /** A command from the app to the strip. */
  datatype Command =
    | SetColorCall(r: int, g: int, b: int)
    | SetBrightnessCall(level: int)
    | PowerOnCall
    | PowerOffCall
    | WriteCall(bytes: seq<UInt8>)

  /** A tick of one of the two `Timer`s. */
  datatype Timer = ConnectionTimeoutFires | KeepAliveTick

  /** A closure scheduled with `asyncAfter` running. */
  datatype Delayed =
    | InitialKeepAliveRuns
    | DelayedConnectRuns(device: DiscoveredDevice)
    | ReconnectAfterTimeoutErrorRuns(retrieved: Option<Retrieved>)
    | ReconnectAfterDropRuns(retrieved: Option<Retrieved>)
    | RetryFailedConnectRuns(id: Uuid, retrieved: Option<Retrieved>)

  /** A callback of the central manager. */
  datatype CentralCallback =
    | StateUpdated(state: CentralState, retrieved: Option<Retrieved>)
    | PeripheralDiscovered(peripheral: Peripheral, advertisedServices: Option<seq<Uuid>>)
    | PeripheralConnected(peripheral: Peripheral)
    | PeripheralDisconnected(peripheral: Peripheral, error: Option<BleError>)
    | PeripheralFailedToConnect(peripheral: Peripheral, error: Option<BleError>)

  /** A callback of the peripheral. */
  datatype DeviceCallback =
    | ServicesDiscovered(peripheral: Peripheral, error: Option<BleError>, services: Option<seq<Uuid>>)
    | CharacteristicsDiscovered(peripheral: Peripheral, error: Option<BleError>, characteristics: Option<seq<Uuid>>)

  datatype Event =
    | AppCall(call: Call)
    | AppCommand(command: Command)
    | TimerFires(timer: Timer)
    | DelayedRuns(work: Delayed)
    | Central(central: CentralCallback)
    | Device(device: DeviceCallback)

  /** A command that reaches the shared controller carries values its
      `require`s accept. */
  predicate CommandEnabled(s: ManagerState, c: Command) {
    match c
    case SetColorCall(r, g, b) => Ready(s) ==> InByteRange(r) && InByteRange(g) && InByteRange(b)
    case SetBrightnessCall(level) => Ready(s) ==> 0 <= level <= 100
    case _ => true
  }

  /** A timer fires only while scheduled. */
  predicate TimerEnabled(s: ManagerState, t: Timer) {
    match t
    case ConnectionTimeoutFires => s.connectionTimer == Scheduled
    case KeepAliveTick => s.keepAliveTimer
  }

  function TaskOf(d: Delayed): Task {
    match d
    case InitialKeepAliveRuns => InitialKeepAlive
    case DelayedConnectRuns(device) => DelayedConnect(device)
    case ReconnectAfterTimeoutErrorRuns(_) => ReconnectAfterTimeoutError
    case ReconnectAfterDropRuns(_) => ReconnectAfterDrop
    case RetryFailedConnectRuns(id, _) => RetryFailedConnect(id)
  }

  /** Whether `e` can happen in `s`: a timer fires only while scheduled, a
      closure runs only while pending, and commands carry accepted values. */
  predicate Enabled(s: ManagerState, e: Event) {
    match e
    case AppCommand(c) => CommandEnabled(s, c)
    case TimerFires(t) => TimerEnabled(s, t)
    case DelayedRuns(d) => TaskOf(d) in s.pending
    case _ => true
  }

  function CallStep(s: ManagerState, c: Call): (t: ManagerState)
    ensures Inv(s) ==> Inv(t)
  {
    match c
    case StartScanningCall => StartScanningNext(s)
    case StopScanningCall => StopScanningNext(s)
    case ConnectCall(device, retrieved) => ConnectNext(s, device, retrieved)
    case DisconnectCall => DisconnectNext(s)
    case ScanAndConnectCall(retrieved) => ScanAndConnectNext(s, retrieved)
    case SetShowAllDevices(value) => SetShowAllDevicesNext(s, value)
  }

  function CommandStep(s: ManagerState, c: Command): (t: ManagerState)
    requires CommandEnabled(s, c)
    ensures Inv(s) ==> Inv(t)
  {
    match c
    case SetColorCall(r, g, b) => SetColorNext(s, r, g, b)
    case SetBrightnessCall(level) => SetBrightnessNext(s, level)
    case PowerOnCall => PowerOnNext(s)
    case PowerOffCall => PowerOffNext(s)
    case WriteCall(bytes) => WriteNext(s, bytes)
  }

  function TimerStep(s: ManagerState, t: Timer): (u: ManagerState)
    requires Inv(s)
    ensures Inv(u)
  {
    match t
    case ConnectionTimeoutFires => ConnectionTimeoutNext(s)
    case KeepAliveTick => KeepAliveTickNext(s)
  }

  function DelayedStep(s: ManagerState, d: Delayed): (t: ManagerState)
    requires Inv(s)
    ensures Inv(t)
  {
    match d
    case InitialKeepAliveRuns => InitialKeepAliveNext(s)
    case DelayedConnectRuns(device) => DelayedConnectNext(s, device)
    case ReconnectAfterTimeoutErrorRuns(retrieved) => ReconnectAfterTimeoutErrorNext(s, retrieved)
    case ReconnectAfterDropRuns(retrieved) => ReconnectAfterDropNext(s, retrieved)
    case RetryFailedConnectRuns(id, retrieved) => RetryFailedConnectNext(s, id, retrieved)
  }

  function CentralStep(s: ManagerState, c: CentralCallback): (t: ManagerState)
    ensures Inv(s) ==> Inv(t)
  {
    match c
    case StateUpdated(state, retrieved) => DidUpdateStateNext(s, state, retrieved)
    case PeripheralDiscovered(p, advertised) => DidDiscoverNext(s, p, advertised)
    case PeripheralConnected(p) => DidConnectNext(s, p)
    case PeripheralDisconnected(_, error) => DidDisconnectNext(s, error)
    case PeripheralFailedToConnect(p, error) => DidFailToConnectNext(s, p, error)
  }

  function DeviceStep(s: ManagerState, c: DeviceCallback): (t: ManagerState)
    ensures Inv(s) ==> Inv(t)
  {
    match c
    case ServicesDiscovered(p, error, services) => DidDiscoverServicesNext(s, p, error, services)
    case CharacteristicsDiscovered(p, error, characteristics) => DidDiscoverCharacteristicsNext(s, p, error, characteristics)
  }

  /** The state after `e`; every event keeps the invariant. */
  function Step(s: ManagerState, e: Event): (t: ManagerState)
    requires Inv(s) && Enabled(s, e)
    ensures Inv(t)
  {
    match e
    case AppCall(c) => CallStep(s, c)
    case AppCommand(c) => CommandStep(s, c)
    case TimerFires(t) => TimerStep(s, t)
    case DelayedRuns(d) => DelayedStep(s, d)
    case Central(c) => CentralStep(s, c)
    case Device(c) => DeviceStep(s, c)
  }

  /** The state after a run of events, stopping at the first event that
      cannot happen; the invariant holds all along. */
  function Run(s: ManagerState, events: seq<Event>): (t: ManagerState)
    requires Inv(s)
    ensures Inv(t)
    decreases |events|
  {
    if events == [] || !Enabled(s, events[0]) then s
    else Run(Step(s, events[0]), events[1..])
  }

  // ---- Requests and remembered values ----

  /** A write goes to the connected peripheral through the stored write
      characteristic, and only while the link is ready. */
  predicate WriteAllowed(s: ManagerState, a: Action) {
    a.WriteWithoutResponse? ==>
      && Ready(s)
      && s.connectedPeripheral == Some(a.peripheral)
      && s.writeCharacteristic == Some(a.characteristic)
      && a.characteristic.uuid == WriteCharacteristicUuid
  }

  /** `t` extends the request log of `s` with requests `s` allows. */
  predicate AllowedRequests(s: ManagerState, t: ManagerState) {
    && s.transport <= t.transport
    && forall i :: |s.transport| <= i < |t.transport| ==> WriteAllowed(s, t.transport[i])
  }

  /** `t` extends the request log of `s` without writing anything, and
      leaves the remembered colour and brightness alone. */
  predicate Quiet(s: ManagerState, t: ManagerState) {
    && s.transport <= t.transport
    && (forall i :: |s.transport| <= i < |t.transport| ==> !t.transport[i].WriteWithoutResponse?)
    && t.currentColor == s.currentColor
    && t.currentBrightness == s.currentBrightness
  }

  lemma QuietTransitive(s: ManagerState, t: ManagerState, u: ManagerState)
    requires Quiet(s, t) && Quiet(t, u)
    ensures Quiet(s, u)
  {
    forall i | |s.transport| <= i < |u.transport| ensures !u.transport[i].WriteWithoutResponse? {
      if i < |t.transport| {
        assert u.transport[i] == t.transport[i];
      }
    }
  }

  /** Appending write-free requests, colour and brightness untouched. */
  lemma AppendedQuietly(s: ManagerState, t: ManagerState, suffix: seq<Action>)
    requires t.transport == s.transport + suffix
    requires forall i :: 0 <= i < |suffix| ==> !suffix[i].WriteWithoutResponse?
    requires t.currentColor == s.currentColor && t.currentBrightness == s.currentBrightness
    ensures Quiet(s, t)
  {
    forall i | |s.transport| <= i < |t.transport| ensures !t.transport[i].WriteWithoutResponse? {
      assert t.transport[i] == suffix[i - |s.transport|];
    }
  }

  lemma StartScanningIsQuiet(s: ManagerState)
    ensures Quiet(s, StartScanningNext(s))
  {
    AppendedQuietly(s, StartScanningNext(s), if s.centralState == PoweredOn then [StartScan] else []);
  }

  /** The link is reused: services are discovered, nothing written. */
  lemma ReuseIsQuiet(t: ManagerState, p: Peripheral)
    ensures Quiet(t, StartKeepAliveNext(MarkConnectedNext(t.(connectedPeripheral := Some(p)), p)))
  {
    AppendedQuietly(t, StartKeepAliveNext(MarkConnectedNext(t.(connectedPeripheral := Some(p)), p)), [DiscoverServices(p)]);
  }

  /** What `connect(to:)` does once scanning has stopped writes nothing. */
  lemma ConnectBranchIsQuiet(t: ManagerState, device: DiscoveredDevice, retrieved: Option<Retrieved>)
    ensures Quiet(t, ConnectAfterStop(t, device, retrieved))
  {
    var u := ConnectAfterStop(t, device, retrieved);
    if retrieved.None? || retrieved.value.state == Disconnected {
      AppendedQuietly(t, u, [ConnectRequest(device.peripheral)]);
    } else if retrieved.value.state == Connected {
      ReuseIsQuiet(t, retrieved.value.peripheral);
    } else if retrieved.value.state == Connecting {
      AppendedQuietly(t, u, []);
    } else {
      AppendedQuietly(t, u, [CancelConnection(retrieved.value.peripheral)]);
    }
  }

  lemma ConnectIsQuiet(s: ManagerState, device: DiscoveredDevice, retrieved: Option<Retrieved>)
    ensures Quiet(s, ConnectNext(s, device, retrieved))
  {
    var t := StopScanningNext(s);
    AppendedQuietly(s, t, [StopScan]);
    ConnectBranchIsQuiet(t, device, retrieved);
    QuietTransitive(s, t, ConnectNext(s, device, retrieved));
  }

  lemma ScanAndConnectIsQuiet(s: ManagerState, retrieved: Option<Retrieved>)
    ensures Quiet(s, ScanAndConnectNext(s, retrieved))
  {
    if s.lastDevice.None? || retrieved.None? {
      StartScanningIsQuiet(s);
    } else {
      ConnectIsQuiet(s, SavedDeviceEntry(s.lastDevice.value, retrieved.value.peripheral), retrieved);
    }
  }

  /** Running a pending task removes it and then does what `next` does. */
  lemma TaskIsQuiet(s: ManagerState, task: Task, next: ManagerState)
    requires Quiet(RemoveTask(s, task), next)
    ensures Quiet(s, next)
  {
    AppendedQuietly(s, RemoveTask(s, task), []);
    QuietTransitive(s, RemoveTask(s, task), next);
  }

  /** The scan and connection calls of the app write nothing. */
  lemma CallsAreQuiet(s: ManagerState, c: Call)
    ensures Quiet(s, CallStep(s, c))
  {
    match c
    case StartScanningCall => StartScanningIsQuiet(s);
    case StopScanningCall => AppendedQuietly(s, StopScanningNext(s), [StopScan]);
    case ConnectCall(device, retrieved) => ConnectIsQuiet(s, device, retrieved);
    case DisconnectCall => AppendedQuietly(s, DisconnectNext(s), CancelOf(s.connectedPeripheral));
    case ScanAndConnectCall(retrieved) => ScanAndConnectIsQuiet(s, retrieved);
    case SetShowAllDevices(value) => AppendedQuietly(s, SetShowAllDevicesNext(s, value), []);
  }

  /** The commands write only on a ready link, to the connected peripheral
      through the write characteristic; only `setBrightness` changes the
      brightness, to the level asked for. */
  lemma CommandsWriteOnlyWhenReady(s: ManagerState, c: Command)
    requires Inv(s) && CommandEnabled(s, c)
    ensures AllowedRequests(s, CommandStep(s, c))
    ensures CommandStep(s, c).currentBrightness != s.currentBrightness ==>
      c.SetBrightnessCall? && Ready(s) && CommandStep(s, c).currentBrightness == c.level
  {
    var t := CommandStep(s, c);
    var suffix := t.transport[|s.transport|..];
    assert t.transport == s.transport + suffix;
    assert forall i :: 0 <= i < |suffix| ==> WriteAllowed(s, suffix[i]);
  }

  /** The keep-alive writes only on a ready link; the connection timeout
      writes nothing; neither changes the brightness. */
  lemma TimersWriteOnlyWhenReady(s: ManagerState, t: Timer)
    requires Inv(s) && TimerEnabled(s, t)
    ensures AllowedRequests(s, TimerStep(s, t))
    ensures TimerStep(s, t).currentBrightness == s.currentBrightness
  {
    var u := TimerStep(s, t);
    var suffix := u.transport[|s.transport|..];
    assert u.transport == s.transport + suffix;
    assert forall i :: 0 <= i < |suffix| ==> WriteAllowed(s, suffix[i]);
  }

  /** The delayed reconnections write nothing. */
  lemma ReconnectionsAreQuiet(s: ManagerState, d: Delayed)
    requires Inv(s) && !d.InitialKeepAliveRuns?
    ensures Quiet(s, DelayedStep(s, d))
  {
    match d
    case DelayedConnectRuns(device) =>
      AppendedQuietly(s, DelayedConnectNext(s, device), [ConnectRequest(device.peripheral)]);
    case ReconnectAfterTimeoutErrorRuns(retrieved) =>
      ScanAndConnectIsQuiet(RemoveTask(s, ReconnectAfterTimeoutError), retrieved);
      TaskIsQuiet(s, ReconnectAfterTimeoutError, DelayedStep(s, d));
    case ReconnectAfterDropRuns(retrieved) =>
      var u := RemoveTask(s, ReconnectAfterDrop);
      if u.isConnected {
        AppendedQuietly(u, DelayedStep(s, d), []);
      } else {
        ScanAndConnectIsQuiet(u, retrieved);
      }
      TaskIsQuiet(s, ReconnectAfterDrop, DelayedStep(s, d));
    case RetryFailedConnectRuns(id, retrieved) =>
      var u := RemoveTask(s, RetryFailedConnect(id));
      if u.isConnected || FirstWithId(u.discoveredDevices, id).None? {
        AppendedQuietly(u, DelayedStep(s, d), []);
      } else {
        ConnectIsQuiet(u, FirstWithId(u.discoveredDevices, id).value, retrieved);
      }
      TaskIsQuiet(s, RetryFailedConnect(id), DelayedStep(s, d));
  }

  /** The delayed closures write only on a ready link (the initial
      keep-alive), and none changes the brightness. */
  lemma DelayedWriteOnlyWhenReady(s: ManagerState, d: Delayed)
    requires Inv(s)
    ensures AllowedRequests(s, DelayedStep(s, d))
    ensures DelayedStep(s, d).currentBrightness == s.currentBrightness
  {
    if d.InitialKeepAliveRuns? {
      var t := DelayedStep(s, d);
      var suffix := t.transport[|s.transport|..];
      assert t.transport == s.transport + suffix;
      assert forall i :: 0 <= i < |suffix| ==> WriteAllowed(s, suffix[i]);
    } else {
      ReconnectionsAreQuiet(s, d);
    }
  }

  lemma DidUpdateStateIsQuiet(s: ManagerState, state: CentralState, retrieved: Option<Retrieved>)
    ensures Quiet(s, DidUpdateStateNext(s, state, retrieved))
  {
    var u := s.(centralState := state);
    AppendedQuietly(s, u, []);
    if state == PoweredOn {
      ScanAndConnectIsQuiet(u, retrieved);
      QuietTransitive(s, u, DidUpdateStateNext(s, state, retrieved));
    } else {
      AppendedQuietly(s, DidUpdateStateNext(s, state, retrieved), []);
    }
  }

  /** The central manager's callbacks write nothing. */
  lemma CentralCallbacksAreQuiet(s: ManagerState, c: CentralCallback)
    ensures Quiet(s, CentralStep(s, c))
  {
    match c
    case StateUpdated(state, retrieved) => DidUpdateStateIsQuiet(s, state, retrieved);
    case PeripheralDiscovered(p, advertised) => AppendedQuietly(s, DidDiscoverNext(s, p, advertised), []);
    case PeripheralConnected(p) => AppendedQuietly(s, DidConnectNext(s, p), [DiscoverServices(p)]);
    case PeripheralDisconnected(_, error) => AppendedQuietly(s, DidDisconnectNext(s, error), []);
    case PeripheralFailedToConnect(p, error) => AppendedQuietly(s, DidFailToConnectNext(s, p, error), []);
  }

  /** The peripheral's discovery callbacks write nothing. */
  lemma DeviceCallbacksAreQuiet(s: ManagerState, c: DeviceCallback)
    ensures Quiet(s, DeviceStep(s, c))
  {
    match c
    case ServicesDiscovered(p, error, services) =>
      if error.Some? || services.None? || |services.value| == 0 {
        AppendedQuietly(s, DeviceStep(s, c), []);
      } else {
        AppendedQuietly(s, DeviceStep(s, c), CharacteristicRequests(p, services.value));
      }
    case CharacteristicsDiscovered(p, error, characteristics) =>
      AppendedQuietly(s, DeviceStep(s, c), []);
  }

  lemma QuietIsAllowed(s: ManagerState, t: ManagerState)
    requires Quiet(s, t)
    ensures AllowedRequests(s, t)
  {
  }

  /** Every request an event issues is allowed by the state before it: no
      frame is written unless connected with the write characteristic
      known, and never through another characteristic. Only
      `setBrightness` on a ready link changes the brightness. */
  lemma StepWritesOnlyWhenReady(s: ManagerState, e: Event)
    requires Inv(s) && Enabled(s, e)
    ensures AllowedRequests(s, Step(s, e))
    ensures Step(s, e).currentBrightness != s.currentBrightness ==>
      e.AppCommand? && e.command.SetBrightnessCall? && Ready(s) && Step(s, e).currentBrightness == e.command.level
  {
    match e
    case AppCall(c) => CallsAreQuiet(s, c); QuietIsAllowed(s, Step(s, e));
    case AppCommand(c) => CommandsWriteOnlyWhenReady(s, c);
    case TimerFires(t) => TimersWriteOnlyWhenReady(s, t);
    case DelayedRuns(d) => DelayedWriteOnlyWhenReady(s, d);
    case Central(c) => CentralCallbacksAreQuiet(s, c); QuietIsAllowed(s, Step(s, e));
    case Device(c) => DeviceCallbacksAreQuiet(s, c); QuietIsAllowed(s, Step(s, e));
  }

  /** Over any run the request log is only appended to. */
  lemma {:induction false} RunAppendsRequests(s: ManagerState, events: seq<Event>)
    requires Inv(s)
    ensures s.transport <= Run(s, events).transport
    decreases |events|
  {
    if events != [] && Enabled(s, events[0]) {
      var t := Step(s, events[0]);
      StepWritesOnlyWhenReady(s, events[0]);
      RunAppendsRequests(t, events[1..]);
    }
  }

  /** Over a run, the brightness is the initial one or the level of some
      `setBrightness` in the run. */
  lemma {:induction false} RunBrightnessComesFromSet(s: ManagerState, events: seq<Event>)
    requires Inv(s)
    ensures var b := Run(s, events).currentBrightness;
      b == s.currentBrightness || exists i :: 0 <= i < |events| && events[i] == AppCommand(SetBrightnessCall(b))
    decreases |events|
  {
    if events != [] && Enabled(s, events[0]) {
      var t := Step(s, events[0]);
      StepWritesOnlyWhenReady(s, events[0]);
      RunBrightnessComesFromSet(t, events[1..]);
      var b := Run(s, events).currentBrightness;
      if b != t.currentBrightness {
        var i :| 0 <= i < |events[1..]| && events[1..][i] == AppCommand(SetBrightnessCall(b));
        assert events[i + 1] == AppCommand(SetBrightnessCall(b));
      }
    }
  }

  // ---- Scenarios ----

  /** The state the handshake ends in: ready, with the keep-alive
      running, the device saved and an initial keep-alive scheduled. */
  predicate HandshakeDone(t: ManagerState, p: Peripheral) {
    && Ready(t)
    && t.connectionStatus == ReadyForCommands
    && t.connectedPeripheral == Some(p)
    && t.writeCharacteristic == Some(Characteristic(p.id, WriteCharacteristicUuid))
    && t.keepAliveTimer
    && t.connectionTimer == NoTimer
    && t.lastDevice == Some(SavedOf(p))
    && InitialKeepAlive in t.pending
  }

  /** The handshake on the transition functions. */
  lemma HandshakeSteps(s: ManagerState, device: DiscoveredDevice, services: seq<Uuid>, characteristics: seq<Uuid>)
    requires ServiceUuid in services && WriteCharacteristicUuid in characteristics
    ensures var p := device.peripheral;
      HandshakeDone(DidDiscoverCharacteristicsNext(DidDiscoverServicesNext(DidConnectNext(ConnectNext(s, device, None), p), p, None, Some(services)), p, None, Some(characteristics)), p)
  {
    var p := device.peripheral;
    var s2 := DidConnectNext(ConnectNext(s, device, None), p);
    assert s2.isConnected && s2.connectedPeripheral == Some(p);
    assert MatchCount(characteristics, WriteCharacteristicUuid) > 0;
  }

  /** The handshake: connecting to a device the central does not know yet,
      the connect callback, the services with the LED service, and the
      characteristics with the write characteristic leave the link ready
      for commands, with the keep-alive running and the device saved. */
  lemma {:induction false} HandshakeReachesReady(s: ManagerState, device: DiscoveredDevice, services: seq<Uuid>, characteristics: seq<Uuid>)
    requires Inv(s)
    requires ServiceUuid in services && WriteCharacteristicUuid in characteristics
    ensures var p := device.peripheral;
      HandshakeDone(Run(s, [AppCall(ConnectCall(device, None)), Central(PeripheralConnected(p)),
                            Device(ServicesDiscovered(p, None, Some(services))),
                            Device(CharacteristicsDiscovered(p, None, Some(characteristics)))]), p)
  {
    var p := device.peripheral;
    var events := [AppCall(ConnectCall(device, None)), Central(PeripheralConnected(p)),
                   Device(ServicesDiscovered(p, None, Some(services))),
                   Device(CharacteristicsDiscovered(p, None, Some(characteristics)))];
    var s1 := ConnectNext(s, device, None);
    var s2 := DidConnectNext(s1, p);
    var s3 := DidDiscoverServicesNext(s2, p, None, Some(services));
    var s4 := DidDiscoverCharacteristicsNext(s3, p, None, Some(characteristics));
    assert events[1..][1..][1..][1..] == [];
    assert Run(s3, events[1..][1..][1..]) == s4;
    assert Run(s2, events[1..][1..]) == s4;
    assert Run(s1, events[1..]) == s4;
    HandshakeSteps(s, device, services, characteristics);
  }

  /** A connection request nobody answers: when the timeout fires the
      attempt is cancelled and reported as timed out. */
  lemma {:induction false} UnansweredConnectTimesOut(s: ManagerState, device: DiscoveredDevice)
    requires Inv(s)
    ensures var p := device.peripheral;
      var t := Run(s, [AppCall(ConnectCall(device, None)), TimerFires(ConnectionTimeoutFires)]);
      && t.connectionStatus == ConnectionTimedOut
      && !t.isConnecting && t.isConnected == s.isConnected
      && t.connectedPeripheral == None
      && t.transport == s.transport + [StopScan, ConnectRequest(p), CancelConnection(p)]
  {
    var events := [AppCall(ConnectCall(device, None)), TimerFires(ConnectionTimeoutFires)];
    var s1 := Step(s, events[0]);
    var s2 := Step(s1, events[1]);
    assert events[1..][1..] == [];
    assert Run(s1, events[1..]) == s2;
  }
}
