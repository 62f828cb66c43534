/**
 * The Windows Runtime values the plugin handles, reduced to the parts it reads.
 * Handles stand for WinRT objects; what the operating system answers to a call
 * is given to the model as an input.
 */
module WinRT {
  import opened Common
  import opened Hex

  type Bytes8 = s: seq<uint8> | |s| == 8 witness [0, 0, 0, 0, 0, 0, 0, 0]

  /** winrt::guid: a 32-bit, two 16-bit and eight 8-bit fields. */
  datatype Guid = Guid(data1: uint32, data2: uint16, data3: uint16, data4: Bytes8)

  /**
   * C++/WinRT's to_hstring(guid): the lowercase braced form
   * "{%08x-%04hx-%04hx-%02hhx%02hhx-%02hhx%02hhx%02hhx%02hhx%02hhx%02hhx}".
   */
  function ToHString(g: Guid): (s: string)
    ensures |s| == 38
  {
    "{" + GuidFields(g) + "}"
  }

  /** The text between the braces of to_hstring(guid). */
  function GuidFields(g: Guid): (s: string)
    ensures |s| == 36
  {
    HexDigits(g.data1, 8) + "-" + HexDigits(g.data2, 4) + "-" + HexDigits(g.data3, 4) + "-"
    + ByteDigits(g.data4[..2]) + "-" + ByteDigits(g.data4[2..])
  }

  /** `%02hhx` of each byte in turn. */
  function ByteDigits(s: seq<uint8>): (r: string)
    ensures |r| == 2 * |s|
  {
    if s == [] then "" else HexDigits(s[0], 2) + ByteDigits(s[1..])
  }

  datatype GattCommunicationStatus = Success | Unreachable | ProtocolError | AccessDenied

  /** GattCharacteristicProperties flag bits read by the plugin. */
  const PROPERTY_NONE: bv32 := 0
  const PROPERTY_NOTIFY: bv32 := 0x10
  const PROPERTY_INDICATE: bv32 := 0x20

  /**
   * GattClientCharacteristicConfigurationDescriptorValue: the Client Characteristic
   * Configuration descriptor of section 3.3.3.3 of the Bluetooth Core Specification,
   * Vol 3, Part G.
   */
  datatype ClientConfiguration = NoNotification | Notify | Indicate

  datatype BluetoothLEDevice = BluetoothLEDevice(bluetoothAddress: uint64)

  datatype GattDeviceService = GattDeviceService(handle: nat, uuid: Guid, device: BluetoothLEDevice)

  datatype GattCharacteristic =
    GattCharacteristic(handle: nat, uuid: Guid, properties: bv32, service: GattDeviceService)

  /** winrt::event_token: identifies one registered event handler. */
  datatype EventToken = EventToken(value: int)

  /** What GetGattServicesAsync and GetCharacteristicsAsync complete with. */
  datatype GattDeviceServicesResult =
    GattDeviceServicesResult(status: GattCommunicationStatus, services: seq<GattDeviceService>)
  datatype GattCharacteristicsResult =
    GattCharacteristicsResult(status: GattCommunicationStatus, characteristics: seq<GattCharacteristic>)

  /** An IBuffer: the bytes it holds. */
  datatype IBuffer = IBuffer(bytes: seq<uint8>)

  /** A DataReader over a buffer: the buffer's bytes and how many of them have been read. */
  class DataReader {
    var bytes: seq<uint8>
    var position: nat

    predicate Valid()
      reads this
    {
      position <= |bytes|
    }

    /** DataReader::FromBuffer: nothing consumed yet. */
    constructor FromBuffer(buffer: IBuffer)
      ensures Valid() && bytes == buffer.bytes && position == 0
    {
      bytes := buffer.bytes;
      position := 0;
    }

    function UnconsumedBufferLength(): (n: nat)
      requires Valid()
      reads this
      ensures n == |bytes| - position
    {
      |bytes| - position
    }

    /** ReadBytes: fills value with the next value.Length unconsumed bytes and consumes them. */
    method ReadBytes(value: array<uint8>)
      requires Valid() && value.Length <= UnconsumedBufferLength()
      modifies this, value
      ensures Valid() && bytes == old(bytes) && position == old(position) + value.Length
      ensures value[..] == bytes[old(position)..position]
    {
      for i := 0 to value.Length
        invariant bytes == old(bytes) && position == old(position) + i
        invariant forall j | 0 <= j < i :: value[j] == bytes[old(position) + j]
      {
        value[i] := bytes[position];
        position := position + 1;
      }
    }
  }

  /** One manufacturer-data section of an advertisement: the company identifier and its payload. */
  datatype BluetoothLEManufacturerData = BluetoothLEManufacturerData(companyId: uint16, data: IBuffer)

  datatype BluetoothLEAdvertisement = BluetoothLEAdvertisement(manufacturerData: seq<BluetoothLEManufacturerData>)

  /** BluetoothLEAdvertisementWatcherStatus, without the transient Stopping and the Aborted states. */
  datatype WatcherStatus = Created | Started | Stopped

  /**
   * A BluetoothLEAdvertisementWatcher: its status and the tokens of its registered Received
   * handlers. The token a registration returns is an input.
   */
  class BluetoothLEAdvertisementWatcher {
    var status: WatcherStatus
    var receivedHandlers: set<EventToken>

    constructor()
      ensures status == Created && receivedHandlers == {}
    {
      status := Created;
      receivedHandlers := {};
    }

    method Start()
      modifies this
      ensures status == Started && receivedHandlers == old(receivedHandlers)
    {
      status := Started;
    }

    method Stop()
      modifies this
      ensures status == Stopped && receivedHandlers == old(receivedHandlers)
    {
      status := Stopped;
    }

    /** Received(handler): registers a handler under the token the platform hands out. */
    method AddReceived(token: EventToken)
      modifies this
      ensures status == old(status) && receivedHandlers == old(receivedHandlers) + {token}
    {
      receivedHandlers := receivedHandlers + {token};
    }

    /** Received(token): revokes the handler registered under token, if any. */
    method RemoveReceived(token: EventToken)
      modifies this
      ensures status == old(status) && receivedHandlers == old(receivedHandlers) - {token}
    {
      receivedHandlers := receivedHandlers - {token};
    }
  }
}
