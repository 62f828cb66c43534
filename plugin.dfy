/**
 * ReactiveBleWindowsPlugin: the method channel's dispatcher with the advertisement watcher's
 * lifecycle, the scan event channel's listen and cancel, and the manufacturer-data helpers.
 */
module Plugin {
  import opened Common
  import opened Endian
  import opened WinRT
  import opened Flutter

  /** to_bytevc: a vector as long as the buffer's unconsumed bytes, filled by ReadBytes. */
  method ToBytevc(buffer: IBuffer) returns (result: seq<uint8>)
    ensures result == buffer.bytes
  {
    var reader := new DataReader.FromBuffer(buffer);
    var vector := new uint8[reader.UnconsumedBufferLength()];
    reader.ReadBytes(vector);
    result := vector[..];
  }

  /**
   * Reads a Manufacturer Specific Data payload (section 1.4 of the Bluetooth Core Specification
   * Supplement, Part A): a company identifier in two octets, least significant first, then the data.
   */
  function SplitManufacturerData(payload: seq<uint8>): (r: Option<(uint16, seq<uint8>)>)
    ensures r.Some? <==> |payload| >= 2
    ensures r.Some? ==> 2 + |r.value.1| == |payload|
  {
    if |payload| < 2 then None
    else
      var companyId: uint16 := payload[0] as int + 256 * payload[1] as int;
      Some((companyId, payload[2..]))
  }

  /** A uint16_t as a little-endian host stores it, read back as a company identifier. */
  lemma CompanyIdBytes(companyId: uint16, data: seq<uint8>)
    ensures SplitManufacturerData(LittleEndianBytes(companyId, 2) + data) == Some((companyId, data))
  {
    var prefix := LittleEndianBytes(companyId, 2);
    assert LittleEndianBytes(companyId / 256, 1) == [(companyId / 256) % 256] + LittleEndianBytes(companyId / 256 / 256, 0);
    assert prefix == [companyId % 256, (companyId / 256) % 256];
    assert (prefix + data)[2..] == data;
  }

  /**
   * parseManufacturerData: nothing without manufacturer data; otherwise the first section's
   * company identifier in host byte order followed by its data. Later sections are ignored.
   */
  method ParseManufacturerData(advertisement: BluetoothLEAdvertisement) returns (result: seq<uint8>)
    ensures |advertisement.manufacturerData| == 0 <==> result == []
    ensures |advertisement.manufacturerData| > 0 ==>
      var first := advertisement.manufacturerData[0];
      SplitManufacturerData(result) == Some((first.companyId, first.data.bytes))
  {
    if |advertisement.manufacturerData| == 0 {
      return [];
    }
    var manufacturerData := advertisement.manufacturerData[0];
    // the bytes of a uint16_t union on a little-endian host
    var prefix := LittleEndianBytes(manufacturerData.companyId, 2);
    result := prefix;
    var data := ToBytevc(manufacturerData.data);
    result := result + data;
    CompanyIdBytes(manufacturerData.companyId, data);
  }

  /** What the IsWindowsXOrGreater helpers report about the running system. */
  datatype WindowsVersion = Windows10OrGreater | Windows8OrGreater | Windows7OrGreater | OlderWindows

  /** The watcher as the plugin sees it: its status and its Received handlers. */
  datatype WatcherState = WatcherState(status: WatcherStatus, receivedHandlers: set<EventToken>)

  datatype PluginState = PluginState(
    bleWatcher: Option<WatcherState>,
    receivedToken: EventToken,
    scanResultSink: Option<EventSink>)

  /** The state of a freshly constructed plugin: a null watcher and a default event_token. */
  const INITIAL_STATE: PluginState := PluginState(None, EventToken(0), None)

  datatype CallResult = CallResult(state: PluginState, reply: MethodReply)

  function VersionSuffix(version: WindowsVersion): string
  {
    match version
    case Windows10OrGreater => "10+"
    case Windows8OrGreater => "8"
    case Windows7OrGreater => "7"
    case OlderWindows => ""
  }

  /**
   * HandleMethodCall on a plugin in state p; newToken is the token a Received registration
   * would return.
   */
  function HandleCall(p: PluginState, methodName: string, version: WindowsVersion, newToken: EventToken): CallResult
  {
    if methodName == "getPlatformVersion" then
      CallResult(p, SuccessReply(Str("Windows " + VersionSuffix(version))))
    else if methodName == "initialize" then
      var registered :=
        if p.bleWatcher.None? then p.(bleWatcher := Some(WatcherState(Created, {newToken})), receivedToken := newToken)
        else p;
      CallResult(registered.(bleWatcher := Some(registered.bleWatcher.value.(status := Started))), SuccessReply(Null))
    else if methodName == "deinitialize" then
      match p.bleWatcher
      case None => CallResult(p, SuccessReply(Null))
      case Some(w) =>
        CallResult(p.(bleWatcher := Some(WatcherState(Stopped, w.receivedHandlers - {p.receivedToken}))), SuccessReply(Null))
    else
      CallResult(p, NotImplemented)
  }

  /** Any other method name is answered NotImplemented and changes nothing. */
  lemma UnknownMethodNotImplemented(p: PluginState, methodName: string, version: WindowsVersion, newToken: EventToken)
    requires methodName != "getPlatformVersion" && methodName != "initialize" && methodName != "deinitialize"
    ensures HandleCall(p, methodName, version, newToken) == CallResult(p, NotImplemented)
  {
  }

  /** getPlatformVersion answers "Windows " and the newest version the system reaches, and changes nothing. */
  lemma PlatformVersionReply(p: PluginState, version: WindowsVersion, newToken: EventToken)
    ensures var r := HandleCall(p, "getPlatformVersion", version, newToken);
      && r.state == p && r.reply.SuccessReply? && r.reply.value.Str?
      && r.reply.value.text[..8] == "Windows "
      && (version == Windows10OrGreater <==> r.reply.value.text == "Windows 10+")
      && (version == OlderWindows <==> r.reply.value.text == "Windows ")
  {
  }

  /**
   * initialize leaves the watcher started and replies Success. Only when there was no watcher
   * does it create one and register a Received handler, whose token it keeps.
   */
  lemma InitializeStarts(p: PluginState, version: WindowsVersion, newToken: EventToken)
    ensures var r := HandleCall(p, "initialize", version, newToken);
      && r.reply == SuccessReply(Null)
      && r.state.bleWatcher.Some? && r.state.bleWatcher.value.status == Started
      && r.state.scanResultSink == p.scanResultSink
      && (p.bleWatcher.None? ==> r.state.bleWatcher.value.receivedHandlers == {newToken} && r.state.receivedToken == newToken)
      && (p.bleWatcher.Some? ==>
            r.state.bleWatcher.value.receivedHandlers == p.bleWatcher.value.receivedHandlers
            && r.state.receivedToken == p.receivedToken)
  {
  }

  /**
   * deinitialize replies Success; a watcher it stops and whose handler it revokes, but keeps,
   * and without a watcher it does nothing.
   */
  lemma DeinitializeStops(p: PluginState, version: WindowsVersion, newToken: EventToken)
    ensures var r := HandleCall(p, "deinitialize", version, newToken);
      && r.reply == SuccessReply(Null)
      && (p.bleWatcher.None? ==> r.state == p)
      && (p.bleWatcher.Some? ==>
            && r.state.bleWatcher.Some?
            && r.state.bleWatcher.value.status == Stopped
            && r.state.bleWatcher.value.receivedHandlers == p.bleWatcher.value.receivedHandlers - {p.receivedToken}
            && r.state == p.(bleWatcher := r.state.bleWatcher))
  {
  }

  /** A watcher holds at most the one handler whose token the plugin keeps. */
  predicate Registered(p: PluginState)
  {
    p.bleWatcher.Some? ==> p.bleWatcher.value.receivedHandlers <= {p.receivedToken}
  }

  lemma HandleCallKeepsRegistered(p: PluginState, methodName: string, version: WindowsVersion, newToken: EventToken)
    requires Registered(p)
    ensures Registered(HandleCall(p, methodName, version, newToken).state)
  {
  }

  /**
   * Since deinitialize keeps the watcher, initialize after it starts the watcher again without
   * registering a Received handler: advertisements are no longer delivered to the plugin.
   */
  lemma ReinitializeDoesNotReregister(version: WindowsVersion, t1: EventToken, t2: EventToken, t3: EventToken)
    ensures var s1 := HandleCall(INITIAL_STATE, "initialize", version, t1).state;
      var s2 := HandleCall(s1, "deinitialize", version, t2).state;
      var s3 := HandleCall(s2, "initialize", version, t3).state;
      && s1.bleWatcher == Some(WatcherState(Started, {t1}))
      && s3.bleWatcher == Some(WatcherState(Started, {}))
  {
    var s1 := HandleCall(INITIAL_STATE, "initialize", version, t1).state;
    assert s1 == PluginState(Some(WatcherState(Started, {t1})), t1, None);
    var s2 := HandleCall(s1, "deinitialize", version, t2).state;
    assert {t1} - {t1} == {};
  }

  /**
   * The name in a stream's arguments: std::get of the map, then of the "name" entry, which
   * operator[] default-constructs (Null) when it is missing.
   */
  function ArgumentName(arguments: EncodableValue): (r: Result<string>)
    ensures r.Err? ==> r.error == BadVariantAccess
  {
    match arguments
    case EncodableMap(args) =>
      var name := if Str("name") in args then args[Str("name")] else Null;
      if name.Str? then Ok(name.text) else Err(BadVariantAccess)
    case _ => Err(BadVariantAccess)
  }

  /** The name is read exactly when the arguments are a map whose "name" entry is a string. */
  lemma ArgumentNameCases(arguments: EncodableValue)
    ensures ArgumentName(arguments).Ok? <==>
      arguments.EncodableMap? && Str("name") in arguments.entries && arguments.entries[Str("name")].Str?
  {
  }

  /** A "name" entry holding a string is read whatever else the map holds. */
  lemma ArgumentNameOfMap(name: string, args: map<EncodableValue, EncodableValue>)
    ensures ArgumentName(EncodableMap(args[Str("name") := Str(name)])) == Ok(name)
  {
  }

  const SCAN_RESULT: string := "scanResult"

  datatype StreamResult = StreamResult(sink: Option<EventSink>, thrown: Option<Exception>)

  /** OnListenInternal on the scan sink: only the "scanResult" stream takes the events sink. */
  function ListenScan(sink: Option<EventSink>, arguments: EncodableValue, events: EventSink): (r: StreamResult)
  {
    match ArgumentName(arguments)
    case Err(e) => StreamResult(sink, Some(e))
    case Ok(name) => StreamResult(if name == SCAN_RESULT then Some(events) else sink, None)
  }

  /** OnCancelInternal on the scan sink: only the "scanResult" stream drops it. */
  function CancelScan(sink: Option<EventSink>, arguments: EncodableValue): (r: StreamResult)
  {
    match ArgumentName(arguments)
    case Err(e) => StreamResult(sink, Some(e))
    case Ok(name) => StreamResult(if name == SCAN_RESULT then None else sink, None)
  }

  /**
   * Listen and cancel throw on the same arguments; neither touches the sink for another stream's
   * name, and a cancel undoes a listen on "scanResult".
   */
  lemma ListenCancelScan(sink: Option<EventSink>, arguments: EncodableValue, events: EventSink)
    ensures var listened := ListenScan(sink, arguments, events);
      var cancelled := CancelScan(listened.sink, arguments);
      && (listened.thrown.Some? <==> ArgumentName(arguments).Err?)
      && cancelled.thrown == listened.thrown
      && (ArgumentName(arguments) == Ok(SCAN_RESULT) ==> listened.sink == Some(events) && cancelled.sink == None)
      && (ArgumentName(arguments) != Ok(SCAN_RESULT) ==> listened.sink == sink && cancelled.sink == sink)
  {
  }

  class ReactiveBleWindowsPlugin {
    var bleWatcher: BluetoothLEAdvertisementWatcher?
    var bluetoothLEWatcherReceivedToken: EventToken
    var scanResultSink: Option<EventSink>

    function State(): PluginState
      reads this, bleWatcher
    {
      PluginState(
        if bleWatcher == null then None else Some(WatcherState(bleWatcher.status, bleWatcher.receivedHandlers)),
        bluetoothLEWatcherReceivedToken,
        scanResultSink)
    }

    constructor()
      ensures State() == INITIAL_STATE
    {
      bleWatcher := null;
      bluetoothLEWatcherReceivedToken := EventToken(0);
      scanResultSink := None;
    }

    /** HandleMethodCall, answering through the returned reply. */
    method HandleMethodCall(methodName: string, version: WindowsVersion, newToken: EventToken) returns (reply: MethodReply)
      modifies this, bleWatcher
      ensures CallResult(State(), reply) == HandleCall(old(State()), methodName, version, newToken)
    {
      if methodName == "getPlatformVersion" {
        reply := SuccessReply(Str("Windows " + VersionSuffix(version)));
      } else if methodName == "initialize" {
        if bleWatcher == null {
          bleWatcher := new BluetoothLEAdvertisementWatcher();
          bleWatcher.AddReceived(newToken);
          assert bleWatcher.receivedHandlers == {newToken};
          bluetoothLEWatcherReceivedToken := newToken;
        }
        bleWatcher.Start();
        reply := SuccessReply(Null);
      } else if methodName == "deinitialize" {
        if bleWatcher != null {
          bleWatcher.Stop();
          bleWatcher.RemoveReceived(bluetoothLEWatcherReceivedToken);
        }
        reply := SuccessReply(Null);
      } else {
        reply := NotImplemented;
      }
    }

    method OnListenInternal(arguments: EncodableValue, events: EventSink) returns (thrown: Option<Exception>)
      modifies this
      ensures var r := ListenScan(old(scanResultSink), arguments, events);
        State() == old(State()).(scanResultSink := r.sink) && thrown == r.thrown
    {
      var name := ArgumentName(arguments);
      if name.Err? {
        return Some(name.error);
      }
      if name.value == SCAN_RESULT {
        scanResultSink := Some(events);
      }
      return None;
    }

    method OnCancelInternal(arguments: EncodableValue) returns (thrown: Option<Exception>)
      modifies this
      ensures var r := CancelScan(old(scanResultSink), arguments);
        State() == old(State()).(scanResultSink := r.sink) && thrown == r.thrown
    {
      var name := ArgumentName(arguments);
      if name.Err? {
        return Some(name.error);
      }
      if name.value == SCAN_RESULT {
        scanResultSink := None;
      }
      return None;
    }
  }
}
