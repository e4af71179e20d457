/**
 * The vocabulary shared by the radio component and its entities: the entity
 * kinds a component can register, what gets published to them, and the calls
 * the component makes on the Bluetooth serial-port (SPP) transport.
 */
module Types {
  import opened Base

  /** Numeric sensors: channel, zone, volume, PTT timer. */
  datatype NumericSensorType = SensorChannel | SensorZone | SensorVolume | SensorPttTimer

  /** Binary sensors: connection, PTT flags, low power, and the radio's mode flags. */
  datatype BinarySensorType =
    | BinConnected | BinPttActive | BinPttData | BinPowerLow | BinScanning
    | BinDuplexEnabled | BinSilentMemory | BinQuietMemory | BinQuietMode

  /** Text sensors: device identification, last message, power and PTT state, channel label. */
  datatype TextSensorType =
    | TextManufacturer | TextModel | TextFirmware | TextSerial | TextLastMessage
    | TextPowerState | TextPttState | TextChannelLabel

  /** Writable numeric controls. */
  datatype NumberType = NumberVolume

  /** Writable boolean controls. */
  datatype SwitchType =
    | SwitchLocationMode | SwitchScan | SwitchDuplex | SwitchQuietMode | SwitchQuietMemory | SwitchSilentMemory

  /** The zone and channel selects. */
  datatype SelectType = SelectZone | SelectChannel

  /** The type an entity was registered with, in its category. */
  datatype Tag =
    | Numeric(numeric: NumericSensorType)
    | Binary(binary: BinarySensorType)
    | Text(text: TextSensorType)
    | Number(number: NumberType)
    | Switch(switch: SwitchType)
    | Select(select: SelectType)

  /** The identity of a registered entity object. */
  type EntityId = nat

  /** One entry of a subscriber list: the registered type and the entity. */
  datatype Subscription = Subscription(tag: Tag, entity: EntityId)

  /**
   * What the component hands an entity: a number, a flag, a text, or (for a
   * select) the request to re-read its option list from the component.
   */
  datatype Value = IntValue(i: int) | BoolValue(b: bool) | TextValue(s: string) | RefreshOptions

  /** One publish_state (or refresh_options) call on an entity. */
  datatype Publication = Publication(tag: Tag, entity: EntityId, value: Value)

  /** A call on the SPP transport: esp_spp_connect to an address, esp_spp_write of a line. */
  datatype TransportCall = Connect(address: seq<byte>) | Write(handle: uint32, data: string)

  /** The SPP events the component's callback handles. */
  datatype SppEvent =
    | InitEvent
    | OpenEvent(handle: uint32)
    | CloseEvent
    | DataEvent(data: seq<byte>)
    | OtherEvent
}
