# flutter_reactive_ble, Windows plugin core: a Dafny model

This project models the native Windows half of flutter_reactive_ble: the C++ plugin that
answers the Dart side's method and event channels with the WinRT Bluetooth LE API. It covers:

- **BleUtils**: the UUID codec between a `winrt::guid`, the 16-byte `Uuid` of the plugin's
  protobuf messages, and the 8-4-4-4-12 lowercase text the caches are keyed by.
- **DeviceAgent**: the per-device `BluetoothDeviceAgent`. It holds a service cache keyed by service
  UUID text, a characteristic cache keyed by characteristic UUID text, and a subscription table
  keyed by the (service, characteristic) pair. It fills the caches from the device's
  enumerations on a miss.
- **CharHandler**: the characteristic event channel's `BleCharHandler`. It covers:
  - the pending read, subscribe or unsubscribe carried out when the channel is listened to;
  - `SetNotifiableAsync`, which writes the Client Characteristic Configuration descriptor and
    registers or revokes the `ValueChanged` handler on a copy of the agent;
  - the `ValueChanged` handler, which reports a notification;
  - `EncodeAndSend`, which sends the serialized message as a list of bytes.
- **Plugin**: `ReactiveBleWindowsPlugin`. It covers:
  - the method-call dispatcher, with the advertisement watcher's lifecycle (`initialize` and
    `deinitialize`);
  - listening to and cancelling the scan-result stream;
  - the `to_bytevc` and `parseManufacturerData` helpers.

Supporting modules:
- Common: fixed-width integers, Option, Result, and the C++ exceptions an operation can end in.
- Endian, Hex and Decimal: byte order, `std::hex`/`%x` output, and `winrt::to_string(winrt::to_hstring(...))`/`std::stoull`.
- WinRT and Flutter: the platform values the plugin handles.

What the operating system or a device answers (a GATT enumeration, a descriptor write status,
the token an event registration returns, protobuf serialization, the Windows version) is an
input of the operation that receives it. Each object whose fields the source updates is a
class. Methods are tied by their postconditions to pure step functions over a value of the
object's state (`AgentState`, `HandlerState`, `PluginState`), and the lemmas are stated about
those functions.

The model differs from the documentation in places; it follows the code.
- The characteristic cache is keyed by the characteristic UUID alone. A cached characteristic
  is therefore returned for whatever service is asked for (`CharacteristicHitIgnoresService`).
- A second subscribe keeps the first table entry and drops the new handler's token
  (`SubscribeInserts`).
- `deinitialize` keeps the watcher. A later `initialize` starts it again without registering
  a handler (`ReinitializeDoesNotReregister`).

## Model

| member | source | states |
|---|---|---|
| Endian.BigEndianValueOfBytes | packages/reactive_ble_windows/windows/ble_utils.cpp:92-94 | reading back the n most-significant-first bytes of a value below 256^n gives the value |
| Endian.BigEndianBytesOfValue | packages/reactive_ble_windows/windows/ble_utils.cpp:36-44 | the n big-endian bytes of a byte sequence's value are the sequence itself |
| Endian.LittleEndianReversesBigEndian | packages/reactive_ble_windows/windows/ble_utils.cpp:36-44 | byte k of a little-endian host's storage is byte n-1-k of the big-endian form, so reading the fields from the last byte down gives them most significant first |
| Hex.HexValueOfDigit | packages/reactive_ble_windows/windows/ble_utils.cpp:64-67 | every nibble's lowercase hex digit reads back as that nibble |
| Hex.HexStringAt | packages/reactive_ble_windows/windows/ble_utils.cpp:65-68 | characters 2i and 2i+1 of the printed bytes are byte i's high and low nibble digits |
| Hex.HexStringAppend | packages/reactive_ble_windows/windows/ble_utils.cpp:65-68 | printing two byte runs one after the other is printing their concatenation |
| Hex.HexDigitsOfByte | packages/reactive_ble_windows/windows/ble_utils.cpp:67 | `%02hhx` of a byte is the same two digits as `setw(2) setfill('0') hex` |
| Hex.HexOfBigEndian | packages/reactive_ble_windows/windows/ble_utils.cpp:65-68 | printing a value in 2n hex digits is printing its n big-endian bytes |
| Decimal.DigitsValueOfDecimal | packages/reactive_ble_windows/windows/ble_char_handler.cpp:200 | the decimal text of an address denotes that address |
| Decimal.StoullOfDecimal | packages/reactive_ble_windows/windows/ble_char_handler.cpp:131 | std::stoull reads back exactly the 64-bit value that the decimal rendering wrote |
| Decimal.StoullRejectsNoDigits | packages/reactive_ble_windows/windows/ble_char_handler.cpp:131 | a device id without a digit, the empty one included, throws invalid_argument |
| BleUtils.GuidToByteVec | packages/reactive_ble_windows/windows/ble_utils.cpp:29-51 | the sixteen bytes pushed are Data1, Data2 and Data3 most significant byte first, then Data4 in order |
| BleUtils.ProtobufUuidToGuid | packages/reactive_ble_windows/windows/ble_utils.cpp:88-100 | Data1, Data2 and Data3 are the big-endian values of bytes 0-3, 4-5 and 6-7, and Data4 is bytes 8-15 of `c_str()`; so 16 bytes or more give GuidOfUuid of the bytes, and 15 bytes end Data4 with the terminating zero |
| BleUtils.GuidRoundTrip | packages/reactive_ble_windows/windows/ble_utils.cpp:29-100 | converting a GUID's bytes back gives the GUID |
| BleUtils.UuidRoundTrip | packages/reactive_ble_windows/windows/ble_utils.cpp:29-100 | converting a 16-byte UUID to a GUID and back gives the bytes |
| BleUtils.ProtobufUuidToString | packages/reactive_ble_windows/windows/ble_utils.cpp:60-79 | the text is UuidText of the bytes; it is produced exactly when there are at least 10 bytes, otherwise inserting at 20 throws out_of_range |
| BleUtils.InsertsHyphens | packages/reactive_ble_windows/windows/ble_utils.cpp:74-77 | inserting at 20, 16, 12 and then 8 puts each hyphen after 8, 12, 16 and 20 digits |
| BleUtils.UuidTextLayout | packages/reactive_ble_windows/windows/ble_utils.cpp:60-79 | the text of 16 bytes has 36 characters: hyphens at 8, 13, 18 and 23, and byte i's two lowercase digits at its place in the 8-4-4-4-12 layout |
| BleUtils.ParseUuidTextRoundTrip | packages/reactive_ble_windows/windows/ble_utils.cpp:60-79 | the 16 bytes can be read back from their text |
| BleUtils.UuidTextInjective | packages/reactive_ble_windows/windows/ble_utils.cpp:60-79 | distinct 16-byte UUIDs have distinct texts |
| BleUtils.StripBraces | packages/reactive_ble_windows/windows/ble_utils.cpp:14-18 | a value longer than one character loses its first and last character; a shorter one is kept |
| BleUtils.GuidToString | packages/reactive_ble_windows/windows/ble_utils.cpp:10-20 | the 36 characters between to_hstring's braces; GuidToStringIsUuidText states that they are the UUID text of the GUID's wire bytes |
| BleUtils.GuidToStringIsUuidText | packages/reactive_ble_windows/windows/ble_utils.cpp:10-20 | GuidToString of a GUID is the ProtobufUuidToString text of that GUID's bytes |
| BleUtils.KeyMatchesRequest | packages/reactive_ble_windows/windows/bluetooth_device_agent.cpp:30-55 | an enumerated GUID's text equals the requested 16 bytes' text exactly when the GUID is the one the bytes encode |
| DeviceAgent.FirstMatch | packages/reactive_ble_windows/windows/bluetooth_device_agent.cpp:28-31 | a match found has the requested key |
| DeviceAgent.FirstMatchIsFirst | packages/reactive_ble_windows/windows/bluetooth_device_agent.cpp:28-31 | none is found exactly when no item has the key; one found is an item with the key before which no item has it (std::map::insert keeps the first) |
| DeviceAgent.ServiceLookup | packages/reactive_ble_windows/windows/bluetooth_device_agent.cpp:21-34 | only the service cache changes; cached entries are kept and only the requested key can be added; a hit returns the cached service without asking the device; a failed enumeration returns nullptr and changes nothing |
| DeviceAgent.ServiceLookupFindsFirstMatch | packages/reactive_ble_windows/windows/bluetooth_device_agent.cpp:23-33 | after a successful enumeration on a miss, the result is the first enumerated service with the key, and it is cached; with none, at() throws out_of_range and nothing is cached |
| DeviceAgent.ServiceLookupKeepsKeying | packages/reactive_ble_windows/windows/bluetooth_device_agent.cpp:21-34 | every cache entry stays filed under its own UUID text, and a found service has the requested text |
| DeviceAgent.FoundServiceHasRequestedUuid | packages/reactive_ble_windows/windows/bluetooth_device_agent.cpp:21-34 | a service found for the text of a 16-byte UUID is the service with that GUID |
| DeviceAgent.CharacteristicLookup | packages/reactive_ble_windows/windows/bluetooth_device_agent.cpp:44-59 | the device, its token and the subscriptions are unchanged; cached characteristics are kept and only the requested key can be added; a hit is returned without asking the device |
| DeviceAgent.CacheCharacteristic | packages/reactive_ble_windows/windows/bluetooth_device_agent.cpp:50-58 | searching the enumerated characteristics changes the characteristic cache only and asks nothing more |
| DeviceAgent.CharacteristicHitIgnoresService | packages/reactive_ble_windows/windows/bluetooth_device_agent.cpp:46-58 | a cached characteristic is returned whatever service is asked for |
| DeviceAgent.CharacteristicMissOutcomes | packages/reactive_ble_windows/windows/bluetooth_device_agent.cpp:46-58 | on a miss: a found characteristic is cached under the key, and every other outcome leaves the characteristic cache unchanged; an exception of the service lookup propagates; a null service is dereferenced; a failed enumeration returns nullptr; otherwise the result is the first characteristic with the key, or at() throws out_of_range when there is none |
| DeviceAgent.CacheCharacteristicKeepsKeying | packages/reactive_ble_windows/windows/bluetooth_device_agent.cpp:53-58 | the characteristic cache stays keyed by UUID text, and a found characteristic has the requested text |
| DeviceAgent.CharacteristicLookupKeepsKeying | packages/reactive_ble_windows/windows/bluetooth_device_agent.cpp:44-59 | a lookup keeps all three tables keyed by UUID text, and a found characteristic has the requested text |
| DeviceAgent.BluetoothDeviceAgent.constructor | packages/reactive_ble_windows/windows/include/reactive_ble_windows/bluetooth_device_agent.h:42-44 | stores the device and the token; the three tables start empty |
| DeviceAgent.BluetoothDeviceAgent.Copy | packages/reactive_ble_windows/windows/include/reactive_ble_windows/bluetooth_device_agent.h:29-40 | the implicit copy has every field of the agent copied |
| DeviceAgent.BluetoothDeviceAgent.Destroy | packages/reactive_ble_windows/windows/include/reactive_ble_windows/bluetooth_device_agent.h:47-50 | releases the device and changes nothing else |
| DeviceAgent.BluetoothDeviceAgent.GetServiceAsync | packages/reactive_ble_windows/windows/bluetooth_device_agent.cpp:21-34 | the loop over the enumeration leaves the agent in the state ServiceLookup gives and returns its result and its calls |
| DeviceAgent.BluetoothDeviceAgent.GetCharacteristicAsync | packages/reactive_ble_windows/windows/bluetooth_device_agent.cpp:44-59 | the agent ends in the state CharacteristicLookup gives, with its result and its calls |
| CharHandler.ChooseDescriptor | packages/reactive_ble_windows/windows/ble_char_handler.cpp:139-150 | Indicate exactly when the Indicate property is set; Notify exactly when only Notify is; None when neither is |
| CharHandler.DescriptorWritten | packages/reactive_ble_windows/windows/ble_char_handler.cpp:138-152 | after the lookup's own calls, a found characteristic's descriptor is written: the chosen configuration when subscribing, None when unsubscribing; a failed write returns false with the table untouched; a failed lookup throws before any write |
| CharHandler.SubscribeInserts | packages/reactive_ble_windows/windows/ble_char_handler.cpp:155-160 | a successful subscribe registers ValueChanged last; the table gains the (characteristic, token) pair unless the key is present, in which case the old entry stays and the new token is dropped |
| CharHandler.UnsubscribeErases | packages/reactive_ble_windows/windows/ble_char_handler.cpp:161-167 | a successful unsubscribe revokes the stored token and erases exactly that key; with the key absent, at() throws out_of_range after the descriptor write |
| CharHandler.ConfigureKeepsKeying | packages/reactive_ble_windows/windows/ble_char_handler.cpp:154-167 | the subscription table gains no key but the requested (service, characteristic) pair, and every entry stays filed under its characteristic's own UUID text |
| CharHandler.UpdateAgentKeepsKeying | packages/reactive_ble_windows/windows/ble_char_handler.cpp:135-171 | the agent copy's tables stay keyed by UUID text |
| CharHandler.SetNotifiableOutcomes | packages/reactive_ble_windows/windows/ble_char_handler.cpp:126-173 | the connected addresses stay the same; an agent is replaced only on success and only at the parsed address; an address not connected answers false with nothing changed or called; an unparsable device id throws |
| CharHandler.NotifyConnectedFrame | packages/reactive_ble_windows/windows/ble_char_handler.cpp:135-170 | once the device is found, only its agent can be replaced, and only when the call answers true |
| CharHandler.SetNotifiableSubscription | packages/reactive_ble_windows/windows/ble_char_handler.cpp:126-173 | a call answering true parsed the address of a connected device and both UUIDs, and replaced only that device's agent; the (service, characteristic) key is then in its table exactly when subscribing, and the rest of the table is unchanged |
| CharHandler.NotifyConnectedSubscription | packages/reactive_ble_windows/windows/ble_char_handler.cpp:135-170 | once the device is found, a call answering true had both UUIDs as text, and leaves the key in the agent's table exactly when subscribing, with the rest of the table unchanged |
| CharHandler.SetNotifiableKeepsKeying | packages/reactive_ble_windows/windows/ble_char_handler.cpp:170 | every connected agent stays keyed by UUID text |
| CharHandler.EncodedEvent | packages/reactive_ble_windows/windows/ble_char_handler.cpp:72-93 | a failed serialization sends the "Failed to serialize message into buffer." error; otherwise the list has one int32 per byte, in order |
| CharHandler.NotificationAddressRoundTrip | packages/reactive_ble_windows/windows/ble_char_handler.cpp:194-219 | a notification's device id parses back to the address, both UUIDs are the 16-byte forms of the GUIDs with the cache-key texts, and the value is the buffer's bytes |
| CharHandler.ListenStep | packages/reactive_ble_windows/windows/ble_char_handler.cpp:24-56 | the sink is always taken; with nothing pending nothing else happens; a pending read sends the stored info; callingMethod is reset unless the task threw |
| CharHandler.ListenNotifies | packages/reactive_ble_windows/windows/ble_char_handler.cpp:33-54 | a pending subscribe or unsubscribe is carried out; false sends exactly that direction's error message, true sends nothing, and an exception propagates |
| CharHandler.BleCharHandler.constructor | packages/reactive_ble_windows/windows/include/reactive_ble_windows/ble_char_handler.h:25 | no sink, nothing pending, nothing connected, nothing sent |
| CharHandler.BleCharHandler.SetNotifiableAsync | packages/reactive_ble_windows/windows/ble_char_handler.cpp:126-173 | the outcome, the connected agents and the calls made are those of SetNotifiable |
| CharHandler.BleCharHandler.NotifyConnectedAsync | packages/reactive_ble_windows/windows/ble_char_handler.cpp:135-170 | the copy, the UUID conversions and the work on the copy, with the stored agent replaced only on success, give NotifyConnected's outcome, devices and calls |
| CharHandler.BleCharHandler.NotifyOnCopy | packages/reactive_ble_windows/windows/ble_char_handler.cpp:138-167 | the copy ends in the state UpdateAgent gives, with its outcome and calls; the handler's other fields are untouched |
| CharHandler.BleCharHandler.EncodeAndSend | packages/reactive_ble_windows/windows/ble_char_handler.cpp:72-93 | exactly one event, EncodedEvent of the serialization, is sent to the current sink |
| CharHandler.BleCharHandler.SendCharacteristicInfo | packages/reactive_ble_windows/windows/ble_char_handler.cpp:99-116 | the stored address and value are sent through EncodeAndSend |
| CharHandler.BleCharHandler.OnListenInternal | packages/reactive_ble_windows/windows/ble_char_handler.cpp:24-56 | the new state and the exception are those of ListenStep |
| CharHandler.BleCharHandler.OnCancelInternal | packages/reactive_ble_windows/windows/ble_char_handler.cpp:59-64 | drops the sink and changes nothing else |
| CharHandler.BleCharHandler.GattCharacteristicValueChanged | packages/reactive_ble_windows/windows/ble_char_handler.cpp:185-222 | without a sink nothing is sent; otherwise the NotificationInfo of the sender and the buffer's bytes is encoded and sent |
| Plugin.ToBytevc | packages/reactive_ble_windows/windows/reactive_ble_windows_plugin.cpp:41-46 | the vector holds exactly the buffer's bytes, in order |
| Plugin.SplitManufacturerData | packages/reactive_ble_windows/windows/reactive_ble_windows_plugin.cpp:137-142 | a payload splits exactly when it has the two company-identifier octets, and the data is the rest |
| Plugin.CompanyIdBytes | packages/reactive_ble_windows/windows/reactive_ble_windows_plugin.cpp:138-142 | a uint16 stored little-endian and followed by data splits back into that identifier and that data |
| Plugin.ParseManufacturerData | packages/reactive_ble_windows/windows/reactive_ble_windows_plugin.cpp:131-144 | empty exactly when there is no manufacturer data; otherwise the result splits into the first section's company identifier and data |
| Plugin.UnknownMethodNotImplemented | packages/reactive_ble_windows/windows/reactive_ble_windows_plugin.cpp:181-183 | any other method name is answered NotImplemented and changes nothing |
| Plugin.PlatformVersionReply | packages/reactive_ble_windows/windows/reactive_ble_windows_plugin.cpp:153-163 | replies "Windows " plus the newest version reached ("10+" exactly on Windows 10 or later; nothing before Windows 7) and changes nothing |
| Plugin.InitializeStarts | packages/reactive_ble_windows/windows/reactive_ble_windows_plugin.cpp:164-172 | the watcher ends started with a Success reply; only when there was none is one created and a Received handler registered, whose token is kept |
| Plugin.DeinitializeStops | packages/reactive_ble_windows/windows/reactive_ble_windows_plugin.cpp:173-178 | Success reply; an existing watcher is stopped and its handler revoked but kept; without one nothing changes |
| Plugin.HandleCallKeepsRegistered | packages/reactive_ble_windows/windows/reactive_ble_windows_plugin.cpp:150-184 | the watcher holds at most the one handler whose token the plugin keeps |
| Plugin.ReinitializeDoesNotReregister | packages/reactive_ble_windows/windows/reactive_ble_windows_plugin.cpp:166-177 | after initialize, deinitialize and initialize the watcher runs with no Received handler |
| Plugin.ArgumentName | packages/reactive_ble_windows/windows/reactive_ble_windows_plugin.cpp:189-190 | a failure to read the name is bad_variant_access |
| Plugin.ArgumentNameCases | packages/reactive_ble_windows/windows/reactive_ble_windows_plugin.cpp:189-190 | the name is read exactly when the arguments are a map whose "name" entry is a string |
| Plugin.ArgumentNameOfMap | packages/reactive_ble_windows/windows/reactive_ble_windows_plugin.cpp:189-190 | a string "name" entry is read whatever else the map holds |
| Plugin.ListenCancelScan | packages/reactive_ble_windows/windows/reactive_ble_windows_plugin.cpp:186-206 | listening and cancelling throw on the same arguments; for "scanResult" listening sets the sink and cancelling clears it; any other name leaves it alone |
| Plugin.ReactiveBleWindowsPlugin.constructor | packages/reactive_ble_windows/windows/reactive_ble_windows_plugin.cpp:69-71 | a null watcher, a default token and no scan sink |
| Plugin.ReactiveBleWindowsPlugin.HandleMethodCall | packages/reactive_ble_windows/windows/reactive_ble_windows_plugin.cpp:150-184 | the reply and the new state, watcher included, are those of HandleCall |
| Plugin.ReactiveBleWindowsPlugin.OnListenInternal | packages/reactive_ble_windows/windows/reactive_ble_windows_plugin.cpp:186-195 | the scan sink and the exception are those of ListenScan; nothing else changes |
| Plugin.ReactiveBleWindowsPlugin.OnCancelInternal | packages/reactive_ble_windows/windows/reactive_ble_windows_plugin.cpp:197-206 | the scan sink and the exception are those of CancelScan; nothing else changes |

## Left out

- Scanning, the connection handler, the status handler and `RegisterWithRegistrar`
  (channel creation and registration): they are not part of this model.
- `OnAdvertisementReceived`: its body is commented out in the source.
- Coroutines and tasks: `co_await` and `.get()` are modelled as ordinary calls completing in order.
  No interleaving of concurrent callbacks is modelled.
- WinRT and the Flutter engine are modelled by their effect only:
  - the operating system's answers (enumerations, descriptor write status, event tokens, Windows
    version) are inputs;
  - calls on device objects are recorded as a log of `PlatformCall`s;
  - registered handlers are tokens in a set.
- Protobuf serialization (`ByteSizeLong` and `SerializeToArray`) is a function given as an input.
  The `malloc`/`free` of its buffer is not modelled.
- ToHString: to_hstring(guid) is assumed to produce C++/WinRT's lowercase braced
  `{8-4-4-4-12}` form; that function is foreign code.
- CharHandler.BleCharHandler.SendCharacteristicInfo: the source decodes the stored buffer as UTF-8
  into an `hstring`, re-encodes it with `to_string`, and sends the first `writeValue.size()` bytes
  of that re-encoding. `size()` counts UTF-16 code units, not bytes, so any value that is not
  ASCII is cut short (a two-byte character sends one byte). The model does not capture the
  decoding, the re-encoding or this truncation: its `value` field is taken to be the bytes sent.
- The `std::cerr` diagnostic printed when there is no characteristic sink.
- CharHandler.BleCharHandler.EncodeAndSend: the `uint32_t` loop counter is taken not to wrap.
  A serialization of 2^32 bytes or more is not modelled.
- CharHandler.BleCharHandler.GattCharacteristicValueChanged: the buffer length is taken to fit
  in `int`.
- Connected agents (held through `std::unique_ptr` in the source) are modelled by value in a map.
  Two consequences:
  - the destructor of the agent that `insert_or_assign` replaces is not modelled;
  - no aliasing between agents is modelled.
- A null `arguments` pointer passed to the plugin's stream handlers is not modelled: Flutter
  always passes a value.
- BleUtils.GuidToByteVec: reads each field's bytes from memory, last byte first, and so assumes
  a little-endian host; Windows runs only on little-endian hosts, so no behaviour is lost.
- Plugin.ParseManufacturerData: assumes a little-endian host (the source's FIXME); it does not
  model a big-endian layout. The pointer `prefix` points into a temporary `uint16_t_union` that
  is destroyed at the end of its declaration. The next line reads the two company-identifier
  bytes through that dangling pointer, which is undefined behaviour. The model assumes the
  two bytes are still there.
- BleUtils.ProtobufUuidToGuid: a UUID of fewer than 15 bytes makes the source read past the end
  of `c_str()`. That is undefined behaviour and is not modelled. Fifteen bytes are modelled: the
  terminating zero becomes the last Data4 byte.
- The `BleCharHandler` fields (`callingMethod`, `characteristicAddress`, the value buffer and
  `connectedDevices`) are shared pointers set by code that is not part of this model. Here they
  are fields of the handler.
- WatcherStatus: the transient Stopping state and the Aborted state are not modelled.
