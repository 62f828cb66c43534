/**
 * The characteristic stream handler: the pending-operation state machine run when the
 * Dart side listens, subscription and unsubscription of characteristic notifications,
 * and the encoding of characteristic values sent to the event sink.
 */
module CharHandler {
  import opened Common
  import opened WinRT
  import opened Flutter
  import opened Decimal
  import opened BleUtils
  import opened DeviceAgent

  /** The operation requested before the characteristic channel is listened to. */
  datatype CallingMethod = NoMethod | Read | Subscribe | Unsubscribe

  /** The protobuf CharacteristicAddress: a device id in decimal and two UUIDs as wire bytes. */
  datatype CharacteristicAddress =
    CharacteristicAddress(deviceId: string, serviceUuid: seq<uint8>, characteristicUuid: seq<uint8>)

  /** The protobuf CharacteristicValueInfo: an address and the value bytes. */
  datatype CharacteristicValueInfo = CharacteristicValueInfo(characteristic: CharacteristicAddress, value: seq<uint8>)

  /** What EventSink::Success or EventSink::Error sends: the bytes, each as an int32_t EncodableValue, or an error code. */
  datatype SinkEvent = SuccessEvent(list: seq<EncodableValue>) | ErrorEvent(code: string)

  /** One event sent to one sink. */
  datatype Delivery = Delivery(sink: EventSink, event: SinkEvent)

  /** The calls the handler makes on WinRT objects, in order. */
  datatype PlatformCall =
    | Query(query: DeviceQuery)
    | WriteDescriptor(characteristic: GattCharacteristic, value: ClientConfiguration)
    | RegisterValueChanged(characteristic: GattCharacteristic, token: EventToken)
    | RevokeValueChanged(characteristic: GattCharacteristic, token: EventToken)

  /**
   * What the operating system answers during one SetNotifiableAsync: the enumerations, the status of
   * the descriptor write, and the token ValueChanged registration returns.
   */
  datatype GattAnswers = GattAnswers(
    services: GattDeviceServicesResult,
    characteristicsOf: GattDeviceService -> GattCharacteristicsResult,
    writeStatus: GattCommunicationStatus,
    newToken: EventToken)

  /** ByteSizeLong and SerializeToArray together: the serialized bytes, or None when serialization failed. */
  type Serializer = CharacteristicValueInfo -> Option<seq<uint8>>

  /** How the task of SetNotifiableAsync completes: with its bool, or by throwing. */
  datatype NotifyOutcome = Completed(success: bool) | Failed(error: Exception)

  const SUBSCRIBE_FAILED: string := "Failed to subscribe to characteristic."
  const UNSUBSCRIBE_FAILED: string := "Failed to unsubscribe from characteristic."
  const SERIALIZE_FAILED: string := "Failed to serialize message into buffer."

  /** The configuration written when subscribing: indications are preferred to notifications. */
  function ChooseDescriptor(properties: bv32): (d: ClientConfiguration)
    ensures d == Indicate <==> properties & PROPERTY_INDICATE != PROPERTY_NONE
    ensures d == Notify <==> properties & PROPERTY_INDICATE == PROPERTY_NONE && properties & PROPERTY_NOTIFY != PROPERTY_NONE
    ensures d == NoNotification <==> properties & (PROPERTY_INDICATE | PROPERTY_NOTIFY) == PROPERTY_NONE
  {
    if properties & PROPERTY_INDICATE != PROPERTY_NONE then Indicate
    else if properties & PROPERTY_NOTIFY != PROPERTY_NONE then Notify
    else NoNotification
  }

  function Queries(qs: seq<DeviceQuery>): (r: seq<PlatformCall>)
    ensures |r| == |qs| && forall i | 0 <= i < |qs| :: r[i] == Query(qs[i])
  {
    if qs == [] then [] else [Query(qs[0])] + Queries(qs[1..])
  }

  datatype AgentUpdate = AgentUpdate(outcome: NotifyOutcome, agent: AgentState, calls: seq<PlatformCall>)

  /** The part of SetNotifiableAsync done on the copy of the agent, once both UUIDs are text. */
  function UpdateAgent(agent: AgentState, serviceUuid: string, charUuid: string, shouldSubscribe: bool, answers: GattAnswers): AgentUpdate
  {
    Configure(CharacteristicLookup(agent, serviceUuid, charUuid, answers.services, answers.characteristicsOf),
              serviceUuid, charUuid, shouldSubscribe, answers)
  }

  /** What follows the characteristic lookup: the descriptor write and the subscription table. */
  function Configure(lookup: Step<GattCharacteristic>, serviceUuid: string, charUuid: string, shouldSubscribe: bool, answers: GattAnswers): AgentUpdate
  {
    var queried := Queries(lookup.queries);
    match lookup.result
    case Threw(e) => AgentUpdate(Failed(e), lookup.state, queried)
    case Null => AgentUpdate(Failed(NullDereference), lookup.state, queried)
    case Found(ch) =>
      var written := queried + [WriteDescriptor(ch, if shouldSubscribe then ChooseDescriptor(ch.properties) else NoNotification)];
      if answers.writeStatus != Success then AgentUpdate(Completed(false), lookup.state, written)
      else
        var key := SubscriptionKey(serviceUuid, charUuid);
        var table := lookup.state.subscribedCharacteristicsAndTokens;
        if shouldSubscribe then
          var entry := Subscription(ch, answers.newToken);
          AgentUpdate(Completed(true),
                      lookup.state.(subscribedCharacteristicsAndTokens := if key in table then table else table[key := entry]),
                      written + [RegisterValueChanged(ch, answers.newToken)])
        else if key !in table then AgentUpdate(Failed(OutOfRange), lookup.state, written)
        else
          AgentUpdate(Completed(true),
                      lookup.state.(subscribedCharacteristicsAndTokens := table - {key}),
                      written + [RevokeValueChanged(table[key].characteristic, table[key].token)])
  }

  /**
   * The table gains no key but (serviceUuid, charUuid), and every entry stays filed under its
   * characteristic's own UUID text.
   */
  lemma ConfigureKeepsKeying(lookup: Step<GattCharacteristic>, serviceUuid: string, charUuid: string, shouldSubscribe: bool, answers: GattAnswers)
    requires CachesKeyed(lookup.state)
    requires lookup.result.Found? ==> CharacteristicKey(lookup.result.value) == charUuid
    ensures CachesKeyed(Configure(lookup, serviceUuid, charUuid, shouldSubscribe, answers).agent)
    ensures Configure(lookup, serviceUuid, charUuid, shouldSubscribe, answers).agent.subscribedCharacteristicsAndTokens.Keys
         <= lookup.state.subscribedCharacteristicsAndTokens.Keys + {SubscriptionKey(serviceUuid, charUuid)}
  {
  }

  /**
   * Once the characteristic is found, the first call after the lookup's own queries writes
   * the configuration: the preferred one when subscribing, none when unsubscribing.
   * A failed write completes with false, and a failed lookup throws before any write; both
   * leave the agent as the lookup left it.
   */
  lemma DescriptorWritten(lookup: Step<GattCharacteristic>, serviceUuid: string, charUuid: string, shouldSubscribe: bool, answers: GattAnswers)
    ensures var r := Configure(lookup, serviceUuid, charUuid, shouldSubscribe, answers);
      && r.calls[..|lookup.queries|] == Queries(lookup.queries)
      && (lookup.result.Found? ==>
            var ch := lookup.result.value;
            && |r.calls| > |lookup.queries|
            && r.calls[|lookup.queries|] == WriteDescriptor(ch, if shouldSubscribe then ChooseDescriptor(ch.properties) else NoNotification))
      && (lookup.result.Found? && answers.writeStatus != Success ==>
            r.outcome == Completed(false) && r.agent == lookup.state)
      && (!lookup.result.Found? ==> r.outcome.Failed? && r.calls == Queries(lookup.queries) && r.agent == lookup.state)
  {
    var r := Configure(lookup, serviceUuid, charUuid, shouldSubscribe, answers);
    if lookup.result.Found? {
      assert r.calls[..|lookup.queries|] == Queries(lookup.queries);
    }
  }

  /**
   * A successful subscribe registers a ValueChanged handler and files it under
   * (service, characteristic) unless that key is already present: then the old entry stays
   * and the new registration's token is not kept anywhere.
   */
  lemma SubscribeInserts(agent: AgentState, serviceUuid: string, charUuid: string, answers: GattAnswers)
    ensures var lookup := CharacteristicLookup(agent, serviceUuid, charUuid, answers.services, answers.characteristicsOf);
      var r := UpdateAgent(agent, serviceUuid, charUuid, true, answers);
      var key := SubscriptionKey(serviceUuid, charUuid);
      var table := agent.subscribedCharacteristicsAndTokens;
      r.outcome == Completed(true) ==>
        && lookup.result.Found? && answers.writeStatus == Success
        && r.agent == lookup.state.(subscribedCharacteristicsAndTokens := r.agent.subscribedCharacteristicsAndTokens)
        && r.calls[|r.calls| - 1] == RegisterValueChanged(lookup.result.value, answers.newToken)
        && key in r.agent.subscribedCharacteristicsAndTokens
        && (key in table ==> r.agent.subscribedCharacteristicsAndTokens == table)
        && (key !in table ==> r.agent.subscribedCharacteristicsAndTokens
                              == table[key := Subscription(lookup.result.value, answers.newToken)])
  {
  }

  /**
   * A successful unsubscribe revokes the stored token and erases only that key; with the key
   * absent, at() throws after the configuration was already written.
   */
  lemma UnsubscribeErases(agent: AgentState, serviceUuid: string, charUuid: string, answers: GattAnswers)
    ensures var lookup := CharacteristicLookup(agent, serviceUuid, charUuid, answers.services, answers.characteristicsOf);
      var r := UpdateAgent(agent, serviceUuid, charUuid, false, answers);
      var key := SubscriptionKey(serviceUuid, charUuid);
      var table := agent.subscribedCharacteristicsAndTokens;
      && (r.outcome == Completed(true) ==>
            && key in table
            && r.agent.subscribedCharacteristicsAndTokens == table - {key}
            && r.calls[|r.calls| - 1] == RevokeValueChanged(table[key].characteristic, table[key].token))
      && (lookup.result.Found? && answers.writeStatus == Success && key !in table ==>
            r.outcome == Failed(OutOfRange) && r.calls[|r.calls| - 1] == WriteDescriptor(lookup.result.value, NoNotification))
  {
  }

  lemma UpdateAgentKeepsKeying(agent: AgentState, serviceUuid: string, charUuid: string, shouldSubscribe: bool, answers: GattAnswers)
    requires CachesKeyed(agent)
    ensures CachesKeyed(UpdateAgent(agent, serviceUuid, charUuid, shouldSubscribe, answers).agent)
  {
    CharacteristicLookupKeepsKeying(agent, serviceUuid, charUuid, answers.services, answers.characteristicsOf);
    ConfigureKeepsKeying(CharacteristicLookup(agent, serviceUuid, charUuid, answers.services, answers.characteristicsOf),
                         serviceUuid, charUuid, shouldSubscribe, answers);
  }

  datatype NotifyResult = NotifyResult(outcome: NotifyOutcome, devices: map<uint64, AgentState>, calls: seq<PlatformCall>)

  /** SetNotifiableAsync over the connected devices, each agent by its state. */
  function SetNotifiable(devices: map<uint64, AgentState>, address: CharacteristicAddress, shouldSubscribe: bool, answers: GattAnswers): NotifyResult
  {
    match Stoull(address.deviceId)
    case Err(e) => NotifyResult(Failed(e), devices, [])
    case Ok(addr) =>
      if addr !in devices then NotifyResult(Completed(false), devices, [])
      else NotifyConnected(devices, addr, address, shouldSubscribe, answers)
  }

  /** SetNotifiableAsync once the device at addr is found connected. */
  function NotifyConnected(devices: map<uint64, AgentState>, addr: uint64, address: CharacteristicAddress, shouldSubscribe: bool, answers: GattAnswers): NotifyResult
    requires addr in devices
  {
    match UuidText(address.serviceUuid)
    case Err(e) => NotifyResult(Failed(e), devices, [])
    case Ok(serviceUuid) =>
      match UuidText(address.characteristicUuid)
      case Err(e) => NotifyResult(Failed(e), devices, [])
      case Ok(charUuid) =>
        var u := UpdateAgent(devices[addr], serviceUuid, charUuid, shouldSubscribe, answers);
        NotifyResult(u.outcome, if u.outcome == Completed(true) then devices[addr := u.agent] else devices, u.calls)
  }

  /**
   * The connected addresses stay the same and only the agent at the parsed address can be
   * replaced, on success only; an unparsable id throws and an address not connected answers
   * false, both before anything is called.
   */
  lemma SetNotifiableOutcomes(devices: map<uint64, AgentState>, address: CharacteristicAddress, shouldSubscribe: bool, answers: GattAnswers)
    ensures var r := SetNotifiable(devices, address, shouldSubscribe, answers);
      && r.devices.Keys == devices.Keys
      && (r.outcome != Completed(true) ==> r.devices == devices)
      && (forall a | a in devices :: r.devices[a] == devices[a] || (Stoull(address.deviceId) == Ok(a) && r.outcome == Completed(true)))
      && (Stoull(address.deviceId).Ok? && Stoull(address.deviceId).value !in devices ==> r == NotifyResult(Completed(false), devices, []))
      && (Stoull(address.deviceId).Err? ==> r == NotifyResult(Failed(Stoull(address.deviceId).error), devices, []))
  {
    var parsed := Stoull(address.deviceId);
    if parsed.Ok? && parsed.value in devices {
      NotifyConnectedFrame(devices, parsed.value, address, shouldSubscribe, answers);
    }
  }

  /** Once the device at addr is found, only its agent can be replaced, and only on success. */
  lemma NotifyConnectedFrame(devices: map<uint64, AgentState>, addr: uint64, address: CharacteristicAddress, shouldSubscribe: bool, answers: GattAnswers)
    requires addr in devices
    ensures var r := NotifyConnected(devices, addr, address, shouldSubscribe, answers);
      && addr in r.devices
      && r.devices == devices[addr := r.devices[addr]]
      && (r.outcome != Completed(true) ==> r.devices == devices)
  {
  }

  /**
   * A call that completes with true parsed the address and both UUIDs, found the device
   * connected and replaced only its agent: after a subscribe that agent's table holds the
   * (service, characteristic) key, after an unsubscribe it no longer does, and the rest of
   * its table is as it was.
   */
  lemma SetNotifiableSubscription(devices: map<uint64, AgentState>, address: CharacteristicAddress, shouldSubscribe: bool, answers: GattAnswers)
    ensures var r := SetNotifiable(devices, address, shouldSubscribe, answers);
      r.outcome == Completed(true) ==>
        && Stoull(address.deviceId).Ok? && Stoull(address.deviceId).value in devices
        && ConnectedSubscription(devices, Stoull(address.deviceId).value, address, shouldSubscribe, r)
  {
    var r := SetNotifiable(devices, address, shouldSubscribe, answers);
    if r.outcome == Completed(true) {
      NotifyConnectedSubscription(devices, Stoull(address.deviceId).value, address, shouldSubscribe, answers);
    }
  }

  /** What a call answering true did to the connected devices, once the device at addr was found. */
  ghost predicate ConnectedSubscription(devices: map<uint64, AgentState>, addr: uint64, address: CharacteristicAddress, shouldSubscribe: bool, r: NotifyResult)
    requires addr in devices
  {
    && UuidText(address.serviceUuid).Ok? && UuidText(address.characteristicUuid).Ok?
    && addr in r.devices
    && var key := SubscriptionKey(UuidText(address.serviceUuid).value, UuidText(address.characteristicUuid).value);
       var before := devices[addr].subscribedCharacteristicsAndTokens;
       var after := r.devices[addr].subscribedCharacteristicsAndTokens;
       && r.devices == devices[addr := r.devices[addr]]
       && (key in after <==> shouldSubscribe)
       && after - {key} == before - {key}
  }

  lemma NotifyConnectedSubscription(devices: map<uint64, AgentState>, addr: uint64, address: CharacteristicAddress, shouldSubscribe: bool, answers: GattAnswers)
    requires addr in devices
    ensures var r := NotifyConnected(devices, addr, address, shouldSubscribe, answers);
      r.outcome == Completed(true) ==> ConnectedSubscription(devices, addr, address, shouldSubscribe, r)
  {
    var r := NotifyConnected(devices, addr, address, shouldSubscribe, answers);
    if r.outcome == Completed(true) {
      var serviceUuid, charUuid := UuidText(address.serviceUuid).value, UuidText(address.characteristicUuid).value;
      if shouldSubscribe {
        SubscribeInserts(devices[addr], serviceUuid, charUuid, answers);
      } else {
        UnsubscribeErases(devices[addr], serviceUuid, charUuid, answers);
      }
    }
  }

  /** Every agent stays keyed by the UUIDs of what it caches. */
  lemma SetNotifiableKeepsKeying(devices: map<uint64, AgentState>, address: CharacteristicAddress, shouldSubscribe: bool, answers: GattAnswers)
    requires forall a | a in devices :: CachesKeyed(devices[a])
    ensures var r := SetNotifiable(devices, address, shouldSubscribe, answers);
      forall a | a in r.devices :: CachesKeyed(r.devices[a])
  {
    var r := SetNotifiable(devices, address, shouldSubscribe, answers);
    if r.outcome == Completed(true) {
      var addr := Stoull(address.deviceId).value;
      UpdateAgentKeepsKeying(devices[addr], UuidText(address.serviceUuid).value,
                             UuidText(address.characteristicUuid).value, shouldSubscribe, answers);
    }
  }

  /** The event EncodeAndSend sends: the serialized bytes one by one, or the serialization error. */
  function EncodedEvent(serialized: Option<seq<uint8>>): (e: SinkEvent)
    ensures serialized.None? <==> e.ErrorEvent?
    ensures serialized.None? ==> e.code == SERIALIZE_FAILED
    ensures serialized.Some? ==>
      |e.list| == |serialized.value| && forall i | 0 <= i < |e.list| :: e.list[i] == Int32(serialized.value[i])
  {
    match serialized
    case None => ErrorEvent(SERIALIZE_FAILED)
    case Some(bytes) => SuccessEvent(seq(|bytes|, i requires 0 <= i < |bytes| => Int32(bytes[i])))
  }

  /** The value info a notification from sender builds. */
  function NotificationInfo(sender: GattCharacteristic, value: seq<uint8>): CharacteristicValueInfo
  {
    var service := sender.service;
    CharacteristicValueInfo(
      CharacteristicAddress(DecimalString(service.device.bluetoothAddress), GuidBytes(service.uuid), GuidBytes(sender.uuid)),
      value)
  }

  /**
   * A notification names its source so that SetNotifiableAsync finds it again: the device id
   * parses back to the device's address, and both UUIDs are 16 bytes whose text is the key
   * the agent's caches and subscription table use.
   */
  lemma NotificationAddressRoundTrip(sender: GattCharacteristic, value: seq<uint8>)
    ensures var info := NotificationInfo(sender, value);
      var a := info.characteristic;
      && Stoull(a.deviceId) == Ok(sender.service.device.bluetoothAddress)
      && |a.serviceUuid| == 16 && |a.characteristicUuid| == 16
      && GuidOfUuid(a.serviceUuid) == sender.service.uuid && GuidOfUuid(a.characteristicUuid) == sender.uuid
      && UuidText(a.serviceUuid) == Ok(GuidToString(sender.service.uuid))
      && UuidText(a.characteristicUuid) == Ok(GuidToString(sender.uuid))
      && info.value == value
  {
    StoullOfDecimal(sender.service.device.bluetoothAddress);
    GuidRoundTrip(sender.service.uuid);
    GuidRoundTrip(sender.uuid);
    GuidToStringIsUuidText(sender.service.uuid);
    GuidToStringIsUuidText(sender.uuid);
  }

  /** The fields of a handler, with each connected agent by its state. */
  datatype HandlerState = HandlerState(
    sink: Option<EventSink>,
    callingMethod: CallingMethod,
    address: CharacteristicAddress,
    value: seq<uint8>,
    devices: map<uint64, AgentState>,
    delivered: seq<Delivery>,
    calls: seq<PlatformCall>)

  datatype ListenResult = ListenResult(state: HandlerState, thrown: Option<Exception>)

  /** OnListenInternal on a handler in state h. */
  function ListenStep(h: HandlerState, events: EventSink, answers: GattAnswers, serialize: Serializer): (r: ListenResult)
    ensures r.state.sink == Some(events)
    ensures r.state.address == h.address && r.state.value == h.value
    ensures r.thrown.None? ==> r.state.callingMethod == NoMethod
    ensures r.thrown.Some? ==> r.state.callingMethod == h.callingMethod && r.state.delivered == h.delivered
    ensures h.callingMethod == NoMethod ==> r == ListenResult(h.(sink := Some(events)), None)
    ensures h.callingMethod == Read ==>
      r.thrown.None? && r.state.devices == h.devices && r.state.calls == h.calls
      && r.state.delivered == h.delivered + [Delivery(events, EncodedEvent(serialize(CharacteristicValueInfo(h.address, h.value))))]
  {
    var h := h.(sink := Some(events));
    match h.callingMethod
    case NoMethod => ListenResult(h, None)
    case Read =>
      var event := EncodedEvent(serialize(CharacteristicValueInfo(h.address, h.value)));
      ListenResult(h.(delivered := h.delivered + [Delivery(events, event)], callingMethod := NoMethod), None)
    case _ =>
      var subscribe := h.callingMethod == Subscribe;
      var message := if subscribe then SUBSCRIBE_FAILED else UNSUBSCRIBE_FAILED;
      var n := SetNotifiable(h.devices, h.address, subscribe, answers);
      var after := h.(devices := n.devices, calls := h.calls + n.calls);
      match n.outcome
      case Failed(e) => ListenResult(after, Some(e))
      case Completed(ok) =>
        var delivered := if ok then after.delivered else after.delivered + [Delivery(events, ErrorEvent(message))];
        ListenResult(after.(delivered := delivered, callingMethod := NoMethod), None)
  }

  /**
   * A pending subscribe or unsubscribe is carried out on the listen; false from it sends
   * exactly that direction's error message, true sends nothing.
   */
  lemma ListenNotifies(h: HandlerState, events: EventSink, answers: GattAnswers, serialize: Serializer)
    requires h.callingMethod == Subscribe || h.callingMethod == Unsubscribe
    ensures var subscribe := h.callingMethod == Subscribe;
      var n := SetNotifiable(h.devices, h.address, subscribe, answers);
      var r := ListenStep(h, events, answers, serialize);
      && r.state.devices == n.devices && r.state.calls == h.calls + n.calls
      && (n.outcome == Completed(true) ==> r.state.delivered == h.delivered && r.thrown.None?)
      && (n.outcome == Completed(false) ==>
            r.thrown.None?
            && r.state.delivered == h.delivered + [Delivery(events, ErrorEvent(if subscribe then SUBSCRIBE_FAILED else UNSUBSCRIBE_FAILED))])
      && (n.outcome.Failed? ==> r.thrown == Some(n.outcome.error))
  {
  }

  class BleCharHandler {
    var characteristicSink: Option<EventSink>
    var callingMethod: CallingMethod
    var characteristicAddress: CharacteristicAddress
    var characteristicValue: seq<uint8>            // the value bytes SendCharacteristicInfo sends
    var connectedDevices: map<uint64, AgentState>  // the agents the map owns, each by its fields
    var delivered: seq<Delivery>                   // every event sent to a sink, in order
    var platformCalls: seq<PlatformCall>           // every call made on a WinRT object, in order

    function State(): HandlerState
      reads this
    {
      HandlerState(characteristicSink, callingMethod, characteristicAddress, characteristicValue,
                   connectedDevices, delivered, platformCalls)
    }

    constructor ()
      ensures State() == HandlerState(None, NoMethod, CharacteristicAddress("", [], []), [], map[], [], [])
    {
      characteristicSink := None;
      callingMethod := NoMethod;
      characteristicAddress := CharacteristicAddress("", [], []);
      characteristicValue := [];
      connectedDevices := map[];
      delivered := [];
      platformCalls := [];
    }

    method SetNotifiableAsync(charAddr: CharacteristicAddress, shouldSubscribe: bool, answers: GattAnswers)
      returns (outcome: NotifyOutcome)
      modifies this
      ensures var r := SetNotifiable(old(connectedDevices), charAddr, shouldSubscribe, answers);
        outcome == r.outcome && State() == old(State()).(devices := r.devices, calls := old(platformCalls) + r.calls)
    {
      var parsed := Stoull(charAddr.deviceId);
      if parsed.Err? {
        return Failed(parsed.error);
      }
      var addr := parsed.value;
      if addr !in connectedDevices {
        return Completed(false);
      }
      outcome := NotifyConnectedAsync(addr, charAddr, shouldSubscribe, answers);
    }

    /** SetNotifiableAsync on the agent at addr: the work is done on a copy, written back only on success. */
    method NotifyConnectedAsync(addr: uint64, charAddr: CharacteristicAddress, shouldSubscribe: bool, answers: GattAnswers)
      returns (outcome: NotifyOutcome)
      requires addr in connectedDevices
      modifies this
      ensures var r := NotifyConnected(old(connectedDevices), addr, charAddr, shouldSubscribe, answers);
        outcome == r.outcome && State() == old(State()).(devices := r.devices, calls := old(platformCalls) + r.calls)
    {
      var agent := new BluetoothDeviceAgent.Copy(connectedDevices[addr]);
      var serviceUuid := ProtobufUuidToString(charAddr.serviceUuid);
      if serviceUuid.Err? {
        return Failed(serviceUuid.error);
      }
      var charUuid := ProtobufUuidToString(charAddr.characteristicUuid);
      if charUuid.Err? {
        return Failed(charUuid.error);
      }
      outcome := NotifyOnCopy(agent, serviceUuid.value, charUuid.value, shouldSubscribe, answers);
      if outcome == Completed(true) {
        // update the connected-devices map with the changed agent
        connectedDevices := connectedDevices[addr := agent.State()];
      }
    }

    /** The part of SetNotifiableAsync done on the copy of the agent, once both UUIDs are text. */
    method NotifyOnCopy(agent: BluetoothDeviceAgent, serviceUuid: string, charUuid: string, shouldSubscribe: bool, answers: GattAnswers)
      returns (outcome: NotifyOutcome)
      modifies this, agent
      ensures var u := UpdateAgent(old(agent.State()), serviceUuid, charUuid, shouldSubscribe, answers);
        outcome == u.outcome && agent.State() == u.agent && platformCalls == old(platformCalls) + u.calls
      ensures characteristicSink == old(characteristicSink) && callingMethod == old(callingMethod)
      ensures characteristicAddress == old(characteristicAddress) && characteristicValue == old(characteristicValue)
      ensures connectedDevices == old(connectedDevices) && delivered == old(delivered)
    {
      var gattChar, queries := agent.GetCharacteristicAsync(serviceUuid, charUuid, answers.services, answers.characteristicsOf);
      var calls := Queries(queries);
      if gattChar.Threw? {
        outcome := Failed(gattChar.error);
      } else if gattChar.Null? {
        // CharacteristicProperties or the descriptor write on a null characteristic
        outcome := Failed(NullDereference);
      } else {
        var ch := gattChar.value;
        var descriptor := NoNotification;
        if shouldSubscribe {
          if ch.properties & PROPERTY_INDICATE != PROPERTY_NONE {
            descriptor := Indicate;
          } else if ch.properties & PROPERTY_NOTIFY != PROPERTY_NONE {
            descriptor := Notify;
          }
        }
        calls := calls + [WriteDescriptor(ch, descriptor)];
        var key := SubscriptionKey(serviceUuid, charUuid);
        if answers.writeStatus != Success {
          outcome := Completed(false);
        } else if shouldSubscribe {
          var token := answers.newToken;
          calls := calls + [RegisterValueChanged(ch, token)];
          if key !in agent.subscribedCharacteristicsAndTokens {
            agent.subscribedCharacteristicsAndTokens := agent.subscribedCharacteristicsAndTokens[key := Subscription(ch, token)];
          }
          outcome := Completed(true);
        } else if key !in agent.subscribedCharacteristicsAndTokens {
          // at() on a missing key
          outcome := Failed(OutOfRange);
        } else {
          var valuePair := agent.subscribedCharacteristicsAndTokens[key];
          calls := calls + [RevokeValueChanged(valuePair.characteristic, valuePair.token)];
          agent.subscribedCharacteristicsAndTokens := agent.subscribedCharacteristicsAndTokens - {key};
          outcome := Completed(true);
        }
      }
      platformCalls := platformCalls + calls;
    }

    method EncodeAndSend(info: CharacteristicValueInfo, serialize: Serializer)
      requires characteristicSink.Some?
      modifies this
      ensures State() == old(State()).(delivered := old(delivered) + [Delivery(old(characteristicSink).value, EncodedEvent(serialize(info)))])
    {
      var serialized := serialize(info);
      if serialized.None? {
        delivered := delivered + [Delivery(characteristicSink.value, ErrorEvent(SERIALIZE_FAILED))];
        return;
      }
      var buffer := serialized.value;
      var result: seq<EncodableValue> := [];
      for i := 0 to |buffer|
        invariant |result| == i && forall j | 0 <= j < i :: result[j] == Int32(buffer[j])
      {
        result := result + [Int32(buffer[i])];
      }
      assert result == EncodedEvent(serialized).list;
      delivered := delivered + [Delivery(characteristicSink.value, SuccessEvent(result))];
    }

    /** Sends the stored address and value bytes. */
    method SendCharacteristicInfo(serialize: Serializer)
      requires characteristicSink.Some?
      modifies this
      ensures State() == old(State()).(delivered := old(delivered)
        + [Delivery(old(characteristicSink).value, EncodedEvent(serialize(CharacteristicValueInfo(characteristicAddress, characteristicValue))))])
    {
      var info := CharacteristicValueInfo(characteristicAddress, characteristicValue);
      EncodeAndSend(info, serialize);
    }

    method OnListenInternal(events: EventSink, answers: GattAnswers, serialize: Serializer)
      returns (thrown: Option<Exception>)
      modifies this
      ensures ListenResult(State(), thrown) == ListenStep(old(State()), events, answers, serialize)
    {
      characteristicSink := Some(events);
      thrown := None;
      if callingMethod == Read {
        SendCharacteristicInfo(serialize);
        callingMethod := NoMethod;
      } else if callingMethod == Subscribe || callingMethod == Unsubscribe {
        var shouldSubscribe: bool;
        var errorMessage: string;
        if callingMethod == Subscribe {
          shouldSubscribe := true;
          errorMessage := SUBSCRIBE_FAILED;
        } else {
          shouldSubscribe := false;
          errorMessage := UNSUBSCRIBE_FAILED;
        }
        var outcome := SetNotifiableAsync(characteristicAddress, shouldSubscribe, answers);
        if outcome.Failed? {
          // task.get() rethrows; callingMethod is left as it was
          return Some(outcome.error);
        }
        if !outcome.success {
          delivered := delivered + [Delivery(events, ErrorEvent(errorMessage))];
        }
        callingMethod := NoMethod;
      }
    }

    method OnCancelInternal()
      modifies this
      ensures State() == old(State()).(sink := None)
    {
      characteristicSink := None;
    }

    /** The ValueChanged handler registered by a subscribe. */
    method GattCharacteristicValueChanged(sender: GattCharacteristic, characteristicValue: IBuffer, serialize: Serializer)
      modifies this
      ensures old(characteristicSink).None? ==> State() == old(State())
      ensures old(characteristicSink).Some? ==>
        State() == old(State()).(delivered := old(delivered)
          + [Delivery(old(characteristicSink).value, EncodedEvent(serialize(NotificationInfo(sender, characteristicValue.bytes))))])
    {
      if characteristicSink.None? {
        // only a diagnostic on the error stream
        return;
      }
      var reader := new DataReader.FromBuffer(characteristicValue);
      var service := sender.service;
      var addrString := DecimalString(service.device.bluetoothAddress);
      var charUuidBytes := GuidToByteVec(sender.uuid);
      var characteristicUuid: seq<uint8> := [];
      for i := 0 to |charUuidBytes|
        invariant characteristicUuid == charUuidBytes[..i]
      {
        characteristicUuid := characteristicUuid + [charUuidBytes[i]];
      }
      var serviceUuidBytes := GuidToByteVec(service.uuid);
      var serviceUuid: seq<uint8> := [];
      for j := 0 to |serviceUuidBytes|
        invariant serviceUuid == serviceUuidBytes[..j]
      {
        serviceUuid := serviceUuid + [serviceUuidBytes[j]];
      }
      assert characteristicUuid == charUuidBytes && serviceUuid == serviceUuidBytes;
      var charAddr := CharacteristicAddress(addrString, serviceUuid, characteristicUuid);
      var data := new uint8[|characteristicValue.bytes|];
      reader.ReadBytes(data);
      assert data[..] == characteristicValue.bytes;
      var updatedCharacteristic := CharacteristicValueInfo(charAddr, data[..]);
      EncodeAndSend(updatedCharacteristic, serialize);
    }
  }
}
