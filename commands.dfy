/**
 * The component's outward operations as functions on its state: the volume
 * and mode controls, the zone and channel requests, the handshake, the
 * channel-table request, and the registration of entities.
 */
module Commands {
  import opened Base
  import opened CLib
  import opened Types
  import opened ChannelTable
  import opened RadioState

  // ----- The five radio mode flags -----

  /**
   * The five on/off modes the radio reports and accepts: scanning, duplex,
   * quiet mode (squelch), quiet memory and silent memory. Each has a command,
   * a notification, a binary sensor and a switch.
   */
  datatype Toggle = Scanning | Duplex | QuietMode | QuietMemory | SilentMemory

  /** The command that sets the mode, without its 0/1 argument. */
  function ToggleCommand(k: Toggle): string
  {
    match k
    case Scanning => "AT+WGSCAN="
    case Duplex => "AT+WGDUP="
    case QuietMode => "AT+WGSSQ="
    case QuietMemory => "AT+WGSQM="
    case SilentMemory => "AT+WGCSM="
  }

  /** The tag of the notification that reports the mode. */
  function TogglePrefix(k: Toggle): string
  {
    match k
    case Scanning => "+WGSCAN:"
    case Duplex => "+WGDUP:"
    case QuietMode => "+WGSSQ:"
    case QuietMemory => "+WGSQM:"
    case SilentMemory => "+WGCSM:"
  }

  function ToggleBinary(k: Toggle): BinarySensorType
  {
    match k
    case Scanning => BinScanning
    case Duplex => BinDuplexEnabled
    case QuietMode => BinQuietMode
    case QuietMemory => BinQuietMemory
    case SilentMemory => BinSilentMemory
  }

  function ToggleSwitch(k: Toggle): SwitchType
  {
    match k
    case Scanning => SwitchScan
    case Duplex => SwitchDuplex
    case QuietMode => SwitchQuietMode
    case QuietMemory => SwitchQuietMemory
    case SilentMemory => SwitchSilentMemory
  }

  /** The cached flag of a mode. */
  function ToggleState(s: Status, k: Toggle): bool
  {
    match k
    case Scanning => s.scanning
    case Duplex => s.duplexEnabled
    case QuietMode => s.quietMode
    case QuietMemory => s.quietMemory
    case SilentMemory => s.silentMemory
  }

  /** The status with one mode flag replaced. */
  function WithToggle(s: Status, k: Toggle, b: bool): (r: Status)
    ensures ToggleState(r, k) == b
    ensures r.(scanning := s.scanning, duplexEnabled := s.duplexEnabled, quietMode := s.quietMode,
      quietMemory := s.quietMemory, silentMemory := s.silentMemory) == s
  {
    match k
    case Scanning => s.(scanning := b)
    case Duplex => s.(duplexEnabled := b)
    case QuietMode => s.(quietMode := b)
    case QuietMemory => s.(quietMemory := b)
    case SilentMemory => s.(silentMemory := b)
  }

  /** Replacing one mode flag leaves the other four as they were. */
  lemma WithToggleKeeps(s: Status, k: Toggle, b: bool, j: Toggle)
    requires j != k
    ensures ToggleState(WithToggle(s, k, b), j) == ToggleState(s, j)
  {
    match k
    case Scanning =>
    case Duplex =>
    case QuietMode =>
    case QuietMemory =>
    case SilentMemory =>
  }

  /** The two publish loops every mode change ends with: its binary sensors, then its switches. */
  function PublishToggle(c: Core, k: Toggle): Core
  {
    var v := BoolValue(ToggleState(c.status, k));
    var c1 := PublishTo(c, c.registry.binarySensors, Binary(ToggleBinary(k)), v);
    PublishTo(c1, c.registry.switches, Switch(ToggleSwitch(k)), v)
  }

  /** "0" or "1". */
  function FlagText(b: bool): string
  {
    if b then "1" else "0"
  }

  /**
   * set_scan_enabled, set_duplex_enabled, set_quiet_mode, set_quiet_memory and
   * set_silent_memory: cache the flag, send the command, publish the flag.
   */
  function SetToggle(c: Core, k: Toggle, enabled: bool): Core
  {
    var c1 := c.(status := WithToggle(c.status, k, enabled));
    PublishToggle(SendCommand(c1, ToggleCommand(k) + FlagText(enabled)), k)
  }

  /**
   * Setting a mode always caches and publishes the new flag, to the mode's
   * binary sensors and then its switches, connected or not; it sends the
   * command with the 0/1 flag over an open connection and drops it
   * otherwise; nothing else changes.
   */
  lemma SetToggleEffect(c: Core, k: Toggle, enabled: bool)
    ensures SetToggle(c, k, enabled).status == WithToggle(c.status, k, enabled)
    ensures SetToggle(c, k, enabled).published == c.published
      + FanOut(c.registry.binarySensors, [(Binary(ToggleBinary(k)), BoolValue(enabled))])
      + FanOut(c.registry.switches, [(Switch(ToggleSwitch(k)), BoolValue(enabled))])
    ensures c.link.connected && c.link.sppHandle != 0 ==>
      SetToggle(c, k, enabled).transport == c.transport + [Write(c.link.sppHandle, ToggleCommand(k) + FlagText(enabled) + "\r\n")]
    ensures !(c.link.connected && c.link.sppHandle != 0) ==> SetToggle(c, k, enabled).transport == c.transport
    ensures SetToggle(c, k, enabled).link == c.link && SetToggle(c, k, enabled).registry == c.registry
    ensures SetToggle(c, k, enabled).channelTable == c.channelTable
  {
  }

  // ----- Volume and location mode -----

  /** The volume limited to the radio's range 0..31. */
  function ClampVolume(v: int): (r: int)
    ensures 0 <= r <= VOLUME_MAX
    ensures 0 <= v <= VOLUME_MAX ==> r == v
    ensures v < 0 ==> r == 0
    ensures v > VOLUME_MAX ==> r == VOLUME_MAX
  {
    if v < 0 then 0 else if v > VOLUME_MAX then VOLUME_MAX else v
  }

  /** The volume sensors, then the volume numbers, receive the cached volume. */
  function PublishVolume(c: Core): Core
  {
    var v := IntValue(c.status.currentVolume);
    var c1 := PublishTo(c, c.registry.numericSensors, Numeric(SensorVolume), v);
    PublishTo(c1, c.registry.numbers, Number(NumberVolume), v)
  }

  /** set_volume, for a volume already rounded to an int. */
  function SetVolume(c: Core, v: int): Core
  {
    var vol := ClampVolume(v);
    PublishVolume(SendCommand(c.(status := c.status.(currentVolume := vol)), "AT+WGAV=" + DecimalText(vol)))
  }

  /**
   * set_volume caches and publishes the clamped volume whether or not the
   * radio is connected, and sends it as "AT+WGAV=<vol>" when it is.
   */
  lemma SetVolumeEffect(c: Core, v: int)
    ensures SetVolume(c, v).status == c.status.(currentVolume := ClampVolume(v))
    ensures SetVolume(c, v).published == c.published
      + FanOut(c.registry.numericSensors, [(Numeric(SensorVolume), IntValue(ClampVolume(v)))])
      + FanOut(c.registry.numbers, [(Number(NumberVolume), IntValue(ClampVolume(v)))])
    ensures c.link.connected && c.link.sppHandle != 0 ==>
      SetVolume(c, v).transport == c.transport + [Write(c.link.sppHandle, "AT+WGAV=" + DecimalText(ClampVolume(v)) + "\r\n")]
    ensures !(c.link.connected && c.link.sppHandle != 0) ==> SetVolume(c, v).transport == c.transport
    ensures SetVolume(c, v).link == c.link && SetVolume(c, v).registry == c.registry
  {
  }

  /** set_location_mode: cache the flag and publish it; nothing is sent. */
  function SetLocationMode(c: Core, enabled: bool): Core
  {
    var c1 := c.(location := c.location.(locationMode := enabled));
    PublishTo(c1, c.registry.switches, Switch(SwitchLocationMode), BoolValue(enabled))
  }

  /**
   * set_location_mode caches the flag, keeps the interval and the time of the
   * last upload, publishes the flag to the location-mode switches and, unlike
   * the other setters, writes nothing to the radio, connected or not.
   */
  lemma SetLocationModeEffect(c: Core, enabled: bool)
    ensures SetLocationMode(c, enabled).location == c.location.(locationMode := enabled)
    ensures SetLocationMode(c, enabled).published == c.published
      + FanOut(c.registry.switches, [(Switch(SwitchLocationMode), BoolValue(enabled))])
    ensures SetLocationMode(c, enabled).transport == c.transport
    ensures SetLocationMode(c, enabled).link == c.link && SetLocationMode(c, enabled).registry == c.registry
    ensures SetLocationMode(c, enabled).status == c.status && SetLocationMode(c, enabled).channelTable == c.channelTable
  {
  }

  // ----- Zone and channel requests -----

  /**
   * set_target_zone: zones outside 1..8 and requests while disconnected are
   * ignored; otherwise "AT+WGZS=<zone>" is sent.
   */
  function SetTargetZone(c: Core, zone: byte): Core
  {
    if zone < 1 || zone > 8 then c
    else if !c.link.connected then c
    else SendCommand(c, "AT+WGZS=" + DecimalText(zone))
  }

  /**
   * set_target_zone_channel: zones outside 1..8, channel 0 and requests while
   * disconnected are ignored; otherwise "AT+WGCHS=<zone>,<channel>" is sent.
   */
  function SetTargetZoneChannel(c: Core, zone: byte, channel: byte): Core
  {
    if zone < 1 || zone > 8 || channel < 1 || channel > 255 then c
    else if !c.link.connected then c
    else SendCommand(c, "AT+WGCHS=" + DecimalText(zone) + "," + DecimalText(channel))
  }

  /**
   * A zone request only ever writes to the radio: the cached zone and
   * channel wait for the radio's own report, and nothing is published.
   */
  lemma SetTargetZoneEffect(c: Core, zone: byte)
    ensures SetTargetZone(c, zone) == c.(transport := SetTargetZone(c, zone).transport)
    ensures 1 <= zone <= 8 && c.link.connected && c.link.sppHandle != 0 ==>
      SetTargetZone(c, zone).transport == c.transport + [Write(c.link.sppHandle, "AT+WGZS=" + DecimalText(zone) + "\r\n")]
    ensures !(1 <= zone <= 8 && c.link.connected) ==> SetTargetZone(c, zone) == c
  {
  }

  lemma SetTargetZoneChannelEffect(c: Core, zone: byte, channel: byte)
    ensures SetTargetZoneChannel(c, zone, channel)
      == c.(transport := SetTargetZoneChannel(c, zone, channel).transport)
    ensures 1 <= zone <= 8 && 1 <= channel && c.link.connected && c.link.sppHandle != 0 ==>
      SetTargetZoneChannel(c, zone, channel).transport == c.transport
        + [Write(c.link.sppHandle, "AT+WGCHS=" + DecimalText(zone) + "," + DecimalText(channel) + "\r\n")]
    ensures !(1 <= zone <= 8 && 1 <= channel && c.link.connected) ==> SetTargetZoneChannel(c, zone, channel) == c
  {
  }

  // ----- Channel table request and handshake -----

  /** request_channel_table: "AT_WGCHSQ" when connected. */
  function RequestChannelTable(c: Core): Core
  {
    if !c.link.connected then c else SendCommand(c, "AT_WGCHSQ")
  }

  /**
   * request_channel_table writes AT_WGCHSQ while connected on a non-zero
   * handle and does nothing otherwise; it never publishes or touches the table.
   */
  lemma RequestChannelTableEffect(c: Core)
    ensures c.link.connected && c.link.sppHandle != 0 ==>
      RequestChannelTable(c) == c.(transport := c.transport + [Write(c.link.sppHandle, "AT_WGCHSQ\r\n")])
    ensures !(c.link.connected && c.link.sppHandle != 0) ==> RequestChannelTable(c) == c
    ensures c.link.connected && c.link.sppHandle != 0 ==>
      Written(RequestChannelTable(c).transport) == Written(c.transport) + ["AT_WGCHSQ\r\n"]
  {
    assert "AT_WGCHSQ" + "\r\n" == "AT_WGCHSQ\r\n";
    SendCommandWritten(c, "AT_WGCHSQ");
  }

  /** The identification and setup commands sent after the link opens, in order. */
  const HANDSHAKE_COMMANDS: seq<string> := ["ATE1", "ATV1", "AT+GMI?", "AT+GMM?", "AT+GMR?", "AT+GSN?", "AT+GOI?"]

  /** send_command_ on each command in turn. */
  function SendAll(c: Core, cmds: seq<string>): Core
  {
    if cmds == [] then c else SendCommand(SendAll(c, cmds[..|cmds| - 1]), cmds[|cmds| - 1])
  }

  /** The writes a list of commands becomes on a handle. */
  function Writes(handle: uint32, cmds: seq<string>): (r: seq<TransportCall>)
    ensures |r| == |cmds|
    ensures forall k :: 0 <= k < |cmds| ==> r[k] == Write(handle, cmds[k] + "\r\n")
  {
    seq(|cmds|, k requires 0 <= k < |cmds| => Write(handle, cmds[k] + "\r\n"))
  }

  lemma WritesAppend(handle: uint32, cmds: seq<string>, cmd: string)
    ensures Writes(handle, cmds + [cmd]) == Writes(handle, cmds) + [Write(handle, cmd + "\r\n")]
  {
    var a := Writes(handle, cmds + [cmd]);
    var b := Writes(handle, cmds) + [Write(handle, cmd + "\r\n")];
    assert |a| == |b|;
    forall k | 0 <= k < |a|
      ensures a[k] == b[k]
    {
      if k < |cmds| {
        assert (cmds + [cmd])[k] == cmds[k];
      }
    }
  }

  /**
   * Sending a list of commands writes each in order over an open link and
   * nothing otherwise, and changes nothing but the transport log.
   */
  lemma {:induction false} SendAllEffect(c: Core, cmds: seq<string>)
    ensures SendAll(c, cmds) == c.(transport := SendAll(c, cmds).transport)
    ensures c.link.connected && c.link.sppHandle != 0 ==> SendAll(c, cmds).transport == c.transport + Writes(c.link.sppHandle, cmds)
    ensures !(c.link.connected && c.link.sppHandle != 0) ==> SendAll(c, cmds).transport == c.transport
  {
    if cmds != [] {
      var init := cmds[..|cmds| - 1];
      SendAllEffect(c, init);
      var h := c.link.sppHandle;
      if c.link.connected && h != 0 {
        assert cmds == init + [cmds[|cmds| - 1]];
        WritesAppend(h, init, cmds[|cmds| - 1]);
      }
    }
  }

  /** send_handshake_commands_. */
  function Handshake(c: Core): Core
  {
    RequestChannelTable(SendAll(c, HANDSHAKE_COMMANDS))
  }

  /**
   * Over an open link the handshake writes ATE1, ATV1, AT+GMI?, AT+GMM?,
   * AT+GMR?, AT+GSN?, AT+GOI? and AT_WGCHSQ, in that order and each ending
   * in CR LF, and changes nothing else.
   */
  lemma HandshakeWrites(c: Core)
    requires c.link.connected && c.link.sppHandle != 0
    ensures Handshake(c) == c.(transport := Handshake(c).transport)
    ensures Handshake(c).transport == c.transport + Writes(c.link.sppHandle, HANDSHAKE_COMMANDS + ["AT_WGCHSQ"])
  {
    SendAllEffect(c, HANDSHAKE_COMMANDS);
    WritesAppend(c.link.sppHandle, HANDSHAKE_COMMANDS, "AT_WGCHSQ");
  }

  // ----- Registration -----

  /** One publish_state call on one entity. */
  function Notify(c: Core, tag: Tag, e: EntityId, v: Value): Core
  {
    c.(published := c.published + [Publication(tag, e, v)])
  }

  /** register_numeric_sensor: subscribe, then publish the current value. */
  function RegisterNumericSensor(c: Core, t: NumericSensorType, e: EntityId): Core
  {
    var c1 := c.(registry := c.registry.(numericSensors := c.registry.numericSensors + [Subscription(Numeric(t), e)]));
    var s := c.status;
    Notify(c1, Numeric(t), e, IntValue(match t
      case SensorChannel => s.currentChannel
      case SensorZone => s.currentZone
      case SensorVolume => s.currentVolume
      case SensorPttTimer => s.pttTimer))
  }

  /** register_binary_sensor. */
  function RegisterBinarySensor(c: Core, t: BinarySensorType, e: EntityId): Core
  {
    var c1 := c.(registry := c.registry.(binarySensors := c.registry.binarySensors + [Subscription(Binary(t), e)]));
    var s := c.status;
    Notify(c1, Binary(t), e, BoolValue(match t
      case BinConnected => c.link.connected
      case BinPttActive => s.pttActive
      case BinPttData => s.pttData
      case BinPowerLow => s.powerLow
      case BinScanning => s.scanning
      case BinDuplexEnabled => s.duplexEnabled
      case BinSilentMemory => s.silentMemory
      case BinQuietMemory => s.quietMemory
      case BinQuietMode => s.quietMode))
  }

  /**
   * register_text_sensor: the last-message sensor gets nothing until a line
   * arrives, the power-state sensor gets nothing for an undefined code, and
   * registering a channel-label sensor republishes the label to every
   * channel-label sensor.
   */
  function RegisterTextSensor(c: Core, t: TextSensorType, e: EntityId): Core
  {
    var c1 := c.(registry := c.registry.(textSensors := c.registry.textSensors + [Subscription(Text(t), e)]));
    var id := c.identity;
    match t
    case TextManufacturer => Notify(c1, Text(t), e, TextValue(id.manufacturer))
    case TextModel => Notify(c1, Text(t), e, TextValue(id.model))
    case TextFirmware => Notify(c1, Text(t), e, TextValue(id.firmware))
    case TextSerial => Notify(c1, Text(t), e, TextValue(id.serial))
    case TextLastMessage => c1
    case TextPowerState =>
      var txt := PowerText(c.status.powerState);
      if txt == [] then c1 else Notify(c1, Text(t), e, TextValue(txt))
    case TextPttState => Notify(c1, Text(t), e, TextValue(PttText(c.status.pttActive, c.status.pttData)))
    case TextChannelLabel => PublishChannelLabel(c1)
  }

  /** register_number: the volume number gets the current volume. */
  function RegisterNumber(c: Core, t: NumberType, e: EntityId): Core
  {
    var c1 := c.(registry := c.registry.(numbers := c.registry.numbers + [Subscription(Number(t), e)]));
    Notify(c1, Number(t), e, IntValue(c.status.currentVolume))
  }

  /** register_switch. */
  function RegisterSwitch(c: Core, t: SwitchType, e: EntityId): Core
  {
    var c1 := c.(registry := c.registry.(switches := c.registry.switches + [Subscription(Switch(t), e)]));
    var s := c.status;
    Notify(c1, Switch(t), e, BoolValue(match t
      case SwitchLocationMode => c.location.locationMode
      case SwitchScan => s.scanning
      case SwitchDuplex => s.duplexEnabled
      case SwitchQuietMode => s.quietMode
      case SwitchQuietMemory => s.quietMemory
      case SwitchSilentMemory => s.silentMemory))
  }

  /** register_select: subscribe only; the select pulls its options itself. */
  function RegisterSelect(c: Core, t: SelectType, e: EntityId): Core
  {
    c.(registry := c.registry.(selects := c.registry.selects + [Subscription(Select(t), e)]))
  }

  /** The registration of a tag's entity, by category. */
  function Register(c: Core, tag: Tag, e: EntityId): Core
  {
    match tag
    case Numeric(t) => RegisterNumericSensor(c, t, e)
    case Binary(t) => RegisterBinarySensor(c, t, e)
    case Text(t) => RegisterTextSensor(c, t, e)
    case Number(t) => RegisterNumber(c, t, e)
    case Switch(t) => RegisterSwitch(c, t, e)
    case Select(t) => RegisterSelect(c, t, e)
  }

  /**
   * What an entity of the tag shows for the component's state, stated per
   * entity kind: the field it mirrors, the text of the power code or PTT
   * state, the channel label; nothing for the last-message sensor, an
   * undefined power code, or a select.
   */
  function Shown(c: Core, tag: Tag): (r: Option<Value>)
    ensures tag.Select? || tag == Text(TextLastMessage) ==> r.None?
  {
    match tag
    case Numeric(SensorChannel) => Some(IntValue(c.status.currentChannel))
    case Numeric(SensorZone) => Some(IntValue(c.status.currentZone))
    case Numeric(SensorVolume) => Some(IntValue(c.status.currentVolume))
    case Numeric(SensorPttTimer) => Some(IntValue(c.status.pttTimer))
    case Binary(BinConnected) => Some(BoolValue(c.link.connected))
    case Binary(BinPttActive) => Some(BoolValue(c.status.pttActive))
    case Binary(BinPttData) => Some(BoolValue(c.status.pttData))
    case Binary(BinPowerLow) => Some(BoolValue(c.status.powerLow))
    case Binary(BinScanning) => Some(BoolValue(ToggleState(c.status, Scanning)))
    case Binary(BinDuplexEnabled) => Some(BoolValue(ToggleState(c.status, Duplex)))
    case Binary(BinSilentMemory) => Some(BoolValue(ToggleState(c.status, SilentMemory)))
    case Binary(BinQuietMemory) => Some(BoolValue(ToggleState(c.status, QuietMemory)))
    case Binary(BinQuietMode) => Some(BoolValue(ToggleState(c.status, QuietMode)))
    case Text(TextManufacturer) => Some(TextValue(c.identity.manufacturer))
    case Text(TextModel) => Some(TextValue(c.identity.model))
    case Text(TextFirmware) => Some(TextValue(c.identity.firmware))
    case Text(TextSerial) => Some(TextValue(c.identity.serial))
    case Text(TextLastMessage) => None
    case Text(TextPowerState) =>
      if PowerText(c.status.powerState) == [] then None else Some(TextValue(PowerText(c.status.powerState)))
    case Text(TextPttState) => Some(TextValue(PttText(c.status.pttActive, c.status.pttData)))
    case Text(TextChannelLabel) => Some(TextValue(ChannelLabelText(c)))
    case Number(NumberVolume) => Some(IntValue(c.status.currentVolume))
    case Switch(SwitchLocationMode) => Some(BoolValue(c.location.locationMode))
    case Switch(SwitchScan) => Some(BoolValue(ToggleState(c.status, Scanning)))
    case Switch(SwitchDuplex) => Some(BoolValue(ToggleState(c.status, Duplex)))
    case Switch(SwitchQuietMode) => Some(BoolValue(ToggleState(c.status, QuietMode)))
    case Switch(SwitchQuietMemory) => Some(BoolValue(ToggleState(c.status, QuietMemory)))
    case Switch(SwitchSilentMemory) => Some(BoolValue(ToggleState(c.status, SilentMemory)))
    case Select(_) => None
  }

  /** A mode's binary sensor and its switch always show the same flag. */
  lemma ToggleShownAlike(c: Core, k: Toggle)
    ensures Shown(c, Binary(ToggleBinary(k))) == Shown(c, Switch(ToggleSwitch(k))) == Some(BoolValue(ToggleState(c.status, k)))
  {
    match k
    case Scanning =>
    case Duplex =>
    case QuietMode =>
    case QuietMemory =>
    case SilentMemory =>
  }

  /** Registering an entity appends it to its category's list and leaves the other lists alone. */
  lemma RegisterSubscribes(c: Core, tag: Tag, e: EntityId)
    ensures SubscribersOf(Register(c, tag, e), tag) == SubscribersOf(c, tag) + [Subscription(tag, e)]
    ensures forall t :: !SameCategory(t, tag) ==> SubscribersOf(Register(c, tag, e), t) == SubscribersOf(c, t)
    ensures Register(c, tag, e).status == c.status && Register(c, tag, e).link == c.link
    ensures Register(c, tag, e).transport == c.transport
  {
    match tag
    case Numeric(_) =>
    case Binary(_) =>
    case Text(t) => RegisterTextKeeps(c, t, e);
    case Number(_) =>
    case Switch(_) =>
    case Select(_) =>
  }

  /** Registering a text sensor changes only its list and the publication log. */
  lemma RegisterTextKeeps(c: Core, t: TextSensorType, e: EntityId)
    ensures var r := RegisterTextSensor(c, t, e);
      r.registry == c.registry.(textSensors := c.registry.textSensors + [Subscription(Text(t), e)])
      && r.status == c.status && r.link == c.link && r.transport == c.transport
  {
    match t
    case TextManufacturer =>
    case TextModel =>
    case TextFirmware =>
    case TextSerial =>
    case TextLastMessage =>
    case TextPowerState =>
    case TextPttState =>
    case TextChannelLabel =>
  }

  /**
   * Registering an entity other than a channel-label sensor hands it what
   * it shows for the current state, and nobody else anything.
   */
  lemma RegisterPublishes(c: Core, tag: Tag, e: EntityId)
    requires tag != Text(TextChannelLabel)
    ensures Register(c, tag, e).published == c.published
      + (if Shown(c, tag).Some? then [Publication(tag, e, Shown(c, tag).value)] else [])
  {
    match tag
    case Numeric(t) =>
    case Binary(t) =>
    case Text(t) =>
      match t {
        case TextManufacturer =>
        case TextModel =>
        case TextFirmware =>
        case TextSerial =>
        case TextLastMessage =>
        case TextPowerState =>
        case TextPttState =>
      }
    case Number(_) =>
    case Switch(t) =>
    case Select(_) =>
  }

  /**
   * Registering a channel-label sensor republishes the label to every
   * channel-label sensor, the new one last.
   */
  lemma RegisterChannelLabel(c: Core, e: EntityId)
    ensures Register(c, Text(TextChannelLabel), e).published == c.published
      + FanOut(c.registry.textSensors + [Subscription(Text(TextChannelLabel), e)], [(Text(TextChannelLabel), TextValue(ChannelLabelText(c)))])
  {
    var c1 := c.(registry := c.registry.(textSensors := c.registry.textSensors + [Subscription(Text(TextChannelLabel), e)]));
    assert ChannelLabelText(c1) == ChannelLabelText(c);
  }
}
