/**
 * XRSRadioComponent as an object: the component's own fields, updated in
 * place by its methods. Each method is proved against the function that
 * specifies it on values (RadioState, Commands, Notifications, Framer,
 * Session), so every property proved there holds of the object too.
 *
 * The published and transport fields log the publish_state calls the
 * component makes on its entities and the calls it makes on the SPP stack.
 */
module Radio {
  import opened Base
  import opened CLib
  import opened Types
  import opened ATParser
  import opened ChannelTable
  import opened RadioState
  import opened Commands
  import opened Notifications
  import opened Framer
  import opened Session

  /** The k-th of the commands, inclusive of the ones before it, as sent by send_command_. */
  lemma SendAllStep(c: Core, cmds: seq<string>, k: nat)
    requires k < |cmds|
    ensures SendAll(c, cmds[..k + 1]) == SendCommand(SendAll(c, cmds[..k]), cmds[k])
  {
    assert cmds[..k + 1][..k] == cmds[..k];
  }

  /** The k-th default channel option is zone k / 80 + 1, channel k % 80 + 1. */
  lemma DefaultIndex(z: nat, ch: nat)
    requires 1 <= z <= 8 && 1 <= ch <= 80
    ensures DefaultZone((z - 1) * 80 + ch - 1) == z && DefaultChannel((z - 1) * 80 + ch - 1) == ch
  {
  }

  /** The first |out| default channel options are in place. */
  predicate DefaultPrefix(out: seq<string>)
  {
    forall k :: 0 <= k < |out| ==> out[k] == ChannelText(DefaultZone(k), DefaultChannel(k))
  }

  /** The inner loop of get_channel_options' default list: channels 1..80 of zone z. */
  method AppendZoneChannels(prefix: seq<string>, z: nat) returns (out: seq<string>)
    requires 1 <= z <= 8 && |prefix| == (z - 1) * 80 && DefaultPrefix(prefix)
    ensures |out| == z * 80 && DefaultPrefix(out)
  {
    out := prefix;
    var ch := 1;
    while ch <= 80
      invariant 1 <= ch <= 81
      invariant |out| == (z - 1) * 80 + ch - 1
      invariant DefaultPrefix(out)
    {
      DefaultIndex(z, ch);
      out := out + [ChannelText(z, ch)];
      ch := ch + 1;
    }
  }

  /** get_channel_options for an empty table: zones 1..8 times channels 1..80. */
  method DefaultChannelList() returns (out: seq<string>)
    ensures out == DefaultChannelOptions()
  {
    out := [];
    var z := 1;
    while z <= 8
      invariant 1 <= z <= 9
      invariant |out| == (z - 1) * 80
      invariant DefaultPrefix(out)
    {
      out := AppendZoneChannels(out, z);
      z := z + 1;
    }
    assert out == DefaultChannelOptions();
  }

  /** get_channel_options for a sorted table: one option per entry. */
  method OptionList(sorted: seq<ChannelInfo>) returns (out: seq<string>)
    ensures out == OptionTexts(sorted)
  {
    out := [];
    for k := 0 to |sorted|
      invariant |out| == k
      invariant forall j :: 0 <= j < k ==> out[j] == OptionText(sorted[j])
    {
      var ci := sorted[k];
      var text := ChannelText(ci.zone, ci.channel);
      if ci.labelText != [] {
        text := text + ": " + ci.labelText;
      }
      assert text == OptionText(ci);
      out := out + [text];
    }
    assert out == OptionTexts(sorted);
  }

  /** get_zone_options' fallback list, zones 1..8. */
  method DefaultZoneList() returns (zones: seq<byte>)
    ensures zones == DEFAULT_ZONES
  {
    zones := [];
    var z: byte := 1;
    while z <= 8
      invariant 1 <= z <= 9
      invariant |zones| == z as int - 1
      invariant forall k :: 0 <= k < |zones| ==> zones[k] as int == k + 1
    {
      zones := zones + [z];
      z := z + 1;
    }
    assert zones == DEFAULT_ZONES;
  }

  /** get_zone_options' last loop: "Zone %u" for each zone. */
  method ZoneTextList(zones: seq<byte>) returns (out: seq<string>)
    ensures out == ZoneTexts(zones)
  {
    out := [];
    for k := 0 to |zones|
      invariant |out| == k
      invariant forall j :: 0 <= j < k ==> out[j] == ZoneText(zones[j])
    {
      out := out + ["Zone " + DecimalText(zones[k])];
    }
    assert out == ZoneTexts(zones);
  }

  /** parse_mac_address_ on the address text: sscanf with "%x:" six times, then each value narrowed to a byte. */
  method ParseMacBytes(mac: string) returns (ok: bool, addr: seq<byte>)
    ensures ok <==> ParseMac(mac).Some?
    ensures ok ==> addr == ParseMac(mac).value
  {
    if |mac| != 17 {
      return false, [];
    }
    var values := Scan(MacFormat(), mac);
    if |values| != 6 {
      return false, [];
    }
    addr := [];
    for i := 0 to 6
      invariant |addr| == i
      invariant forall k :: 0 <= k < i ==> addr[k] == ToByte(values[k])
    {
      addr := addr + [ToByte(values[i])];
    }
    ok := true;
  }

  class XRSRadioComponent {
    // The component's fields, in the groups the value model uses: the link
    // and its backoff, the radio's identification, the cached radio state,
    // the entity lists, and the location upload settings.
    var link: Link
    var identity: Identity
    var status: Status
    var registry: Registry
    var location: Location
    var channelTable: seq<ChannelInfo>
    var rxBuffer: string

    // What the component has done to the outside world, in order.
    var published: seq<Publication>
    var transport: seq<TransportCall>

    ghost function CoreModel(): Core
      reads this
    {
      Core(link, identity, status, registry, location, channelTable, published, transport)
    }

    ghost function StateModel(): State
      reads this
    {
      State(rxBuffer, CoreModel())
    }

    /** The initial values the class declares for its fields. */
    constructor ()
      ensures StateModel() == State([], Initial())
    {
      link := Link("", false, false, false, false, 0, RECONNECT_DELAY_INITIAL, 0);
      identity := Identity("", "", "", "");
      status := Status(0, 0, 0, false, false, 0, 0, false, false, false, false, false, false);
      registry := Registry([], [], [], [], [], []);
      location := Location(false, 60000, 0);
      channelTable, rxBuffer := [], [];
      published, transport := [], [];
    }

    // ----- Publishing -----

    /** One publish_state call on one entity. */
    method Notify(tag: Tag, e: EntityId, v: Value)
      modifies `published
      ensures published == old(published) + [Publication(tag, e, v)]
    {
      published := published + [Publication(tag, e, v)];
    }

    /**
     * A publish loop over one subscriber list: each entry whose type has a
     * rule in the if / else-if chain is handed that rule's value.
     */
    method Publish(subs: seq<Subscription>, rules: seq<(Tag, Value)>)
      modifies `published
      ensures published == old(published) + FanOut(subs, rules)
    {
      var i := 0;
      while i < |subs|
        invariant 0 <= i <= |subs|
        invariant published == old(published) + FanOut(subs[..i], rules)
      {
        FanOutStep(subs, rules, i);
        var rule := RuleFor(rules, subs[i].tag);
        ghost var emitted := Emit(subs[i], rules);
        if rule.Some? {
          assert emitted == [Publication(subs[i].tag, subs[i].entity, rule.value)];
          published := published + [Publication(subs[i].tag, subs[i].entity, rule.value)];
        } else {
          assert emitted == [];
        }
        assert published == old(published) + (FanOut(subs[..i], rules) + emitted);
        i := i + 1;
      }
      assert subs[..i] == subs;
    }

    // ----- Output -----

    /** send_command_. */
    method SendCommand(cmd: string)
      modifies `transport
      ensures CoreModel() == RadioState.SendCommand(old(CoreModel()), cmd)
    {
      if !link.connected || link.sppHandle == 0 {
        return;
      }
      transport := transport + [Write(link.sppHandle, cmd + "\r\n")];
    }

    /** request_channel_table. */
    method RequestChannelTable()
      modifies `transport
      ensures CoreModel() == Commands.RequestChannelTable(old(CoreModel()))
    {
      if !link.connected {
        return;
      }
      SendCommand("AT_WGCHSQ");
    }

    /** send_handshake_commands_. */
    method SendHandshakeCommands()
      modifies `transport
      ensures CoreModel() == Handshake(old(CoreModel()))
    {
      ghost var c := CoreModel();
      assert HANDSHAKE_COMMANDS[..0] == [];
      SendCommand("ATE1");
      SendAllStep(c, HANDSHAKE_COMMANDS, 0);
      SendCommand("ATV1");
      SendAllStep(c, HANDSHAKE_COMMANDS, 1);
      SendCommand("AT+GMI?");
      SendAllStep(c, HANDSHAKE_COMMANDS, 2);
      SendCommand("AT+GMM?");
      SendAllStep(c, HANDSHAKE_COMMANDS, 3);
      SendCommand("AT+GMR?");
      SendAllStep(c, HANDSHAKE_COMMANDS, 4);
      SendCommand("AT+GSN?");
      SendAllStep(c, HANDSHAKE_COMMANDS, 5);
      SendCommand("AT+GOI?");
      SendAllStep(c, HANDSHAKE_COMMANDS, 6);
      assert HANDSHAKE_COMMANDS[..7] == HANDSHAKE_COMMANDS;
      RequestChannelTable();
    }

    // ----- Channel label -----

    /** get_channel_label_: the label of the first entry with the key, or "". */
    method GetChannelLabel(zone: byte, channel: byte) returns (text: string)
      ensures text == Label(channelTable, zone, channel)
    {
      var i := 0;
      while i < |channelTable|
        invariant 0 <= i <= |channelTable|
        invariant forall k :: 0 <= k < i ==> !HasKey(channelTable[k], zone, channel)
      {
        if channelTable[i].zone == zone && channelTable[i].channel == channel {
          return channelTable[i].labelText;
        }
        i := i + 1;
      }
      return "";
    }

    /** publish_channel_label_. */
    method PublishChannelLabel()
      modifies `published
      ensures CoreModel() == RadioState.PublishChannelLabel(old(CoreModel()))
    {
      var text := GetChannelLabel(ToByte(status.currentZone), ToByte(status.currentChannel));
      if text == [] {
        text := "Z" + UnsignedText(status.currentZone) + " / Ch " + UnsignedText(status.currentChannel);
      }
      Publish(registry.textSensors, [(Text(TextChannelLabel), TextValue(text))]);
    }

    // ----- Registration -----

    /** register_numeric_sensor. */
    method RegisterNumericSensor(t: NumericSensorType, e: EntityId)
      modifies `registry, `published
      ensures CoreModel() == Commands.RegisterNumericSensor(old(CoreModel()), t, e)
    {
      registry := registry.(numericSensors := registry.numericSensors + [Subscription(Numeric(t), e)]);
      match t {
        case SensorChannel => Notify(Numeric(t), e, IntValue(status.currentChannel));
        case SensorZone => Notify(Numeric(t), e, IntValue(status.currentZone));
        case SensorVolume => Notify(Numeric(t), e, IntValue(status.currentVolume));
        case SensorPttTimer => Notify(Numeric(t), e, IntValue(status.pttTimer));
      }
    }

    /** register_binary_sensor. */
    method RegisterBinarySensor(t: BinarySensorType, e: EntityId)
      modifies `registry, `published
      ensures CoreModel() == Commands.RegisterBinarySensor(old(CoreModel()), t, e)
    {
      registry := registry.(binarySensors := registry.binarySensors + [Subscription(Binary(t), e)]);
      var v :=
        match t
        case BinConnected => link.connected
        case BinPttActive => status.pttActive
        case BinPttData => status.pttData
        case BinPowerLow => status.powerLow
        case BinScanning => status.scanning
        case BinDuplexEnabled => status.duplexEnabled
        case BinSilentMemory => status.silentMemory
        case BinQuietMemory => status.quietMemory
        case BinQuietMode => status.quietMode;
      Notify(Binary(t), e, BoolValue(v));
    }

    /** register_text_sensor. */
    method RegisterTextSensor(t: TextSensorType, e: EntityId)
      modifies `registry, `published
      ensures CoreModel() == Commands.RegisterTextSensor(old(CoreModel()), t, e)
    {
      registry := registry.(textSensors := registry.textSensors + [Subscription(Text(t), e)]);
      match t {
        case TextManufacturer => Notify(Text(t), e, TextValue(identity.manufacturer));
        case TextModel => Notify(Text(t), e, TextValue(identity.model));
        case TextFirmware => Notify(Text(t), e, TextValue(identity.firmware));
        case TextSerial => Notify(Text(t), e, TextValue(identity.serial));
        case TextLastMessage =>
        case TextPowerState =>
          var txt := PowerText(status.powerState);
          if txt != [] {
            Notify(Text(t), e, TextValue(txt));
          }
        case TextPttState => Notify(Text(t), e, TextValue(PttText(status.pttActive, status.pttData)));
        case TextChannelLabel => PublishChannelLabel();
      }
    }

    /** register_number. */
    method RegisterNumber(t: NumberType, e: EntityId)
      modifies `registry, `published
      ensures CoreModel() == Commands.RegisterNumber(old(CoreModel()), t, e)
    {
      registry := registry.(numbers := registry.numbers + [Subscription(Number(t), e)]);
      Notify(Number(t), e, IntValue(status.currentVolume));
    }

    /** register_switch. */
    method RegisterSwitch(t: SwitchType, e: EntityId)
      modifies `registry, `published
      ensures CoreModel() == Commands.RegisterSwitch(old(CoreModel()), t, e)
    {
      registry := registry.(switches := registry.switches + [Subscription(Switch(t), e)]);
      var v :=
        match t
        case SwitchLocationMode => location.locationMode
        case SwitchScan => status.scanning
        case SwitchDuplex => status.duplexEnabled
        case SwitchQuietMode => status.quietMode
        case SwitchQuietMemory => status.quietMemory
        case SwitchSilentMemory => status.silentMemory;
      Notify(Switch(t), e, BoolValue(v));
    }

    /** register_select. */
    method RegisterSelect(t: SelectType, e: EntityId)
      modifies `registry
      ensures CoreModel() == Commands.RegisterSelect(old(CoreModel()), t, e)
    {
      registry := registry.(selects := registry.selects + [Subscription(Select(t), e)]);
    }

    // ----- Controls -----

    /** set_volume, for a volume already rounded to an int. */
    method SetVolume(volume: int)
      modifies `status, `transport, `published
      ensures CoreModel() == Commands.SetVolume(old(CoreModel()), volume)
    {
      var vol := volume;
      if vol < 0 {
        vol := 0;
      }
      if vol > 31 {
        vol := 31;
      }
      status := status.(currentVolume := vol);
      SendCommand("AT+WGAV=" + DecimalText(vol));
      Publish(registry.numericSensors, [(Numeric(SensorVolume), IntValue(status.currentVolume))]);
      Publish(registry.numbers, [(Number(NumberVolume), IntValue(status.currentVolume))]);
    }

    /** set_location_mode. */
    method SetLocationMode(enabled: bool)
      modifies `location, `published
      ensures CoreModel() == Commands.SetLocationMode(old(CoreModel()), enabled)
    {
      location := location.(locationMode := enabled);
      Publish(registry.switches, [(Switch(SwitchLocationMode), BoolValue(location.locationMode))]);
    }

    /** The binary sensors, then the switches, of a mode receive its cached flag. */
    method PublishToggle(k: Toggle)
      modifies `published
      ensures CoreModel() == Commands.PublishToggle(old(CoreModel()), k)
    {
      var b :=
        match k
        case Scanning => status.scanning
        case Duplex => status.duplexEnabled
        case QuietMode => status.quietMode
        case QuietMemory => status.quietMemory
        case SilentMemory => status.silentMemory;
      Publish(registry.binarySensors, [(Binary(ToggleBinary(k)), BoolValue(b))]);
      Publish(registry.switches, [(Switch(ToggleSwitch(k)), BoolValue(b))]);
    }

    /** set_scan_enabled, set_duplex_enabled, set_quiet_mode, set_quiet_memory, set_silent_memory. */
    method SetToggle(k: Toggle, enabled: bool)
      modifies `status, `transport, `published
      ensures CoreModel() == Commands.SetToggle(old(CoreModel()), k, enabled)
    {
      match k {
        case Scanning => status := status.(scanning := enabled);
        case Duplex => status := status.(duplexEnabled := enabled);
        case QuietMode => status := status.(quietMode := enabled);
        case QuietMemory => status := status.(quietMemory := enabled);
        case SilentMemory => status := status.(silentMemory := enabled);
      }
      SendCommand(ToggleCommand(k) + (if enabled then "1" else "0"));
      PublishToggle(k);
    }

    /** set_target_zone. */
    method SetTargetZone(zone: byte)
      modifies `transport
      ensures CoreModel() == Commands.SetTargetZone(old(CoreModel()), zone)
    {
      if zone < 1 || zone > 8 {
        return;
      }
      if !link.connected {
        return;
      }
      SendCommand("AT+WGZS=" + DecimalText(zone));
    }

    /** set_target_zone_channel. */
    method SetTargetZoneChannel(zone: byte, channel: byte)
      modifies `transport
      ensures CoreModel() == Commands.SetTargetZoneChannel(old(CoreModel()), zone, channel)
    {
      if zone < 1 || zone > 8 || channel < 1 || channel > 255 {
        return;
      }
      if !link.connected {
        return;
      }
      SendCommand("AT+WGCHS=" + DecimalText(zone) + "," + DecimalText(channel));
    }

    /** set_mac_address. */
    method SetMacAddress(mac: string)
      modifies `link
      ensures CoreModel() == old(CoreModel()).(link := old(link).(macAddress := mac))
    {
      link := link.(macAddress := mac);
    }

    /** set_location_interval. */
    method SetLocationInterval(ms: uint32)
      modifies `location
      ensures CoreModel() == old(CoreModel()).(location := old(location).(locationInterval := ms))
    {
      location := location.(locationInterval := ms);
    }

    /** get_current_zone and get_current_channel: the cached ints narrowed to uint8_t. */
    method GetCurrentZone() returns (z: byte)
      ensures z == CurrentZoneByte(CoreModel())
      ensures (status.currentZone - z) % 256 == 0
    {
      z := ToByte(status.currentZone);
    }

    method GetCurrentChannel() returns (ch: byte)
      ensures ch == CurrentChannelByte(CoreModel())
      ensures (status.currentChannel - ch) % 256 == 0
    {
      ch := ToByte(status.currentChannel);
    }

    // ----- Option lists -----

    /** The first loop of get_zone_options: the table's zones in order of first occurrence. */
    method CollectZones() returns (zones: seq<byte>)
      ensures zones == ZoneList(channelTable)
    {
      var t := channelTable;
      zones := [];
      for k := 0 to |t|
        invariant zones == ZoneList(t[..k])
      {
        assert t[..k + 1][..k] == t[..k];
        if t[k].zone !in zones {
          zones := zones + [t[k].zone];
        }
      }
      assert t[..|t|] == t;
    }

    /** get_zone_options. */
    method GetZoneOptions() returns (out: seq<string>)
      ensures out == ZoneOptions(channelTable)
    {
      var zones := CollectZones();
      if zones == [] {
        zones := DefaultZoneList();
      }
      zones := SortBytes(zones);
      out := ZoneTextList(zones);
    }

    /** get_channel_options. */
    method GetChannelOptions() returns (out: seq<string>)
      ensures out == ChannelOptions(channelTable)
    {
      if channelTable == [] {
        out := DefaultChannelList();
        return;
      }
      var sorted := SortByKey(channelTable);
      out := OptionList(sorted);
    }

    // ----- Notifications -----

    /** handle_ptt_notification_. */
    method HandlePttNotification(state: int, timer: int)
      modifies `status, `published
      ensures CoreModel() == HandlePtt(old(CoreModel()), state, timer)
    {
      status := status.(pttActive := state == 1 || state == 2, pttData := state == 2,
        pttTimer := if state == 2 && timer > 0 then timer else 0);
      Publish(registry.binarySensors,
        [(Binary(BinPttActive), BoolValue(status.pttActive)), (Binary(BinPttData), BoolValue(status.pttData))]);
      Publish(registry.numericSensors, [(Numeric(SensorPttTimer), IntValue(status.pttTimer))]);
      Publish(registry.textSensors, [(Text(TextPttState), TextValue(PttText(status.pttActive, status.pttData)))]);
    }

    /** handle_power_notification_. */
    method HandlePowerNotification(state: int)
      modifies `status, `published
      ensures CoreModel() == HandlePower(old(CoreModel()), state)
    {
      status := status.(powerState := state, powerLow := state == 5);
      Publish(registry.binarySensors, [(Binary(BinPowerLow), BoolValue(status.powerLow))]);
      var txt := PowerText(state);
      if txt != [] {
        Publish(registry.textSensors, [(Text(TextPowerState), TextValue(txt))]);
      }
    }

    /** handle_scan_notification_ and its four siblings. */
    method HandleModeNotification(k: Toggle, enabled: int)
      modifies `status, `published
      ensures CoreModel() == HandleMode(old(CoreModel()), k, enabled)
    {
      var b := enabled != 0;
      match k {
        case Scanning => status := status.(scanning := b);
        case Duplex => status := status.(duplexEnabled := b);
        case QuietMode => status := status.(quietMode := b);
        case QuietMemory => status := status.(quietMemory := b);
        case SilentMemory => status := status.(silentMemory := b);
      }
      PublishToggle(k);
    }

    /** The loop of handle_channel_table_line_ that overwrites the entry with the key, else appends. */
    method UpsertEntry(info: ChannelInfo)
      modifies `channelTable
      ensures channelTable == Upsert(old(channelTable), info)
    {
      var updated := false;
      var i := 0;
      while i < |channelTable| && !updated
        invariant 0 <= i <= |channelTable| == |old(channelTable)|
        invariant !updated ==> channelTable == old(channelTable)
        invariant !updated ==> forall k :: 0 <= k < i ==> !HasKey(old(channelTable)[k], info.zone, info.channel)
        invariant updated ==> 0 < i && FindKey(old(channelTable), info.zone, info.channel) == Some(i - 1)
        invariant updated ==> channelTable == old(channelTable)[i - 1 := info]
      {
        if channelTable[i].zone == info.zone && channelTable[i].channel == info.channel {
          channelTable := channelTable[i := info];
          updated := true;
        }
        i := i + 1;
      }
      if !updated {
        channelTable := channelTable + [info];
      }
    }

    /** The loop of handle_channel_table_line_ that has every select refresh its options. */
    method RefreshSelects()
      modifies `published
      ensures published == old(published) + Refreshes(registry.selects)
    {
      var subs := registry.selects;
      for i := 0 to |subs|
        invariant |published| == |old(published)| + i
        invariant published[..|old(published)|] == old(published)
        invariant forall k :: 0 <= k < i ==>
          published[|old(published)| + k] == Publication(subs[k].tag, subs[k].entity, RefreshOptions)
      {
        Notify(subs[i].tag, subs[i].entity, RefreshOptions);
      }
      assert published == old(published) + Refreshes(subs);
    }

    /** handle_channel_table_line_. */
    method HandleChannelTableLine(line: string)
      modifies `channelTable, `published
      ensures CoreModel() == Notifications.HandleChannelTableLine(old(CoreModel()), line)
    {
      var parsed := ParseTableLine(line);
      if parsed.None? {
        return;
      }
      var info := parsed.value;
      UpsertEntry(info);
      if info.zone as int == status.currentZone && info.channel as int == status.currentChannel {
        PublishChannelLabel();
      }
      RefreshSelects();
    }

    /** The +GMI:, +GMM:, +GMR: and +GSN: branches of handle_line_. */
    method HandleIdentityReply(t: TextSensorType, text: string)
      modifies `identity, `published
      ensures CoreModel() == HandleIdentity(old(CoreModel()), t, text)
    {
      match t {
        case TextManufacturer => identity := identity.(manufacturer := text);
        case TextModel => identity := identity.(model := text);
        case TextFirmware => identity := identity.(firmware := text);
        case _ => identity := identity.(serial := text);
      }
      Publish(registry.textSensors, [(Text(t), TextValue(text))]);
    }

    /** The +WGAV: branch of handle_line_. */
    method HandleVolumeReport(line: string)
      modifies `status, `published
      ensures CoreModel() == PublishVolume(old(CoreModel()).(status := old(status).(currentVolume := ReportedVolume(line))))
    {
      var v := if |line| >= 7 then Atoi(line[7..]) else 0;
      if v < 0 {
        v := 0;
      }
      if v > 31 {
        v := 31;
      }
      status := status.(currentVolume := v);
      Publish(registry.numericSensors, [(Numeric(SensorVolume), IntValue(status.currentVolume))]);
      Publish(registry.numbers, [(Number(NumberVolume), IntValue(status.currentVolume))]);
    }

    /** The +WGCHS: branch of handle_line_ once both numbers are read. */
    method HandleZoneChannelReport(zone: int, channel: int)
      modifies `status, `published
      ensures CoreModel() == HandleZoneChannel(old(CoreModel()), zone, channel)
    {
      status := status.(currentZone := zone, currentChannel := channel);
      Publish(registry.numericSensors,
        [(Numeric(SensorZone), IntValue(status.currentZone)), (Numeric(SensorChannel), IntValue(status.currentChannel))]);
      PublishChannelLabel();
    }

    /** The +WHZS: branch of handle_line_ once the number is read. */
    method HandleZoneReport(zone: int)
      modifies `status, `published
      ensures CoreModel() == HandleZone(old(CoreModel()), zone)
    {
      status := status.(currentZone := zone);
      Publish(registry.numericSensors, [(Numeric(SensorZone), IntValue(status.currentZone))]);
      PublishChannelLabel();
    }

    /** A "+WGCHS:" line of handle_line_. */
    method HandleZoneChannelLine(line: string)
      requires Classify(line).ZoneChannel?
      modifies `status, `published
      ensures CoreModel() == Notifications.HandleLine(old(CoreModel()), line)
    {
      ZoneChannelBranch(old(CoreModel()), line);
      var vals := Scan(TwoValueFormat("+WGCHS:"), line);
      if |vals| == 2 {
        HandleZoneChannelReport(vals[0], vals[1]);
      }
    }

    /** A "+WHZS:" line of handle_line_. */
    method HandleZoneLine(line: string)
      requires Classify(line).ZoneReport?
      modifies `status, `published
      ensures CoreModel() == Notifications.HandleLine(old(CoreModel()), line)
    {
      ZoneBranch(old(CoreModel()), line);
      var vals := Scan(OneValueFormat("+WHZS:"), line);
      if |vals| == 1 {
        HandleZoneReport(vals[0]);
      }
    }

    /** A "+WGPTT:" line of handle_line_. */
    method HandlePttLine(line: string)
      requires Classify(line).Ptt?
      modifies `status, `published
      ensures CoreModel() == Notifications.HandleLine(old(CoreModel()), line)
    {
      PttBranch(old(CoreModel()), line);
      var vals := Scan(TwoValueFormat("+WGPTT:"), line);
      var state := if |vals| >= 1 then vals[0] else 0;
      var timer := if |vals| == 2 then vals[1] else 0;
      HandlePttNotification(state, timer);
    }

    /** A "+WGPOW:" line of handle_line_. */
    method HandlePowerLine(line: string)
      requires Classify(line).Power?
      modifies `status, `published
      ensures CoreModel() == Notifications.HandleLine(old(CoreModel()), line)
    {
      PowerBranch(old(CoreModel()), line);
      var vals := Scan(OneValueFormat("+WGPOW:"), line);
      if |vals| == 1 {
        HandlePowerNotification(vals[0]);
      }
    }

    /** A line of handle_line_ reporting one of the radio's modes. */
    method HandleModeLine(line: string, k: Toggle)
      requires Classify(line) == Mode(k)
      modifies `status, `published
      ensures CoreModel() == Notifications.HandleLine(old(CoreModel()), line)
    {
      ModeBranch(old(CoreModel()), line, k);
      var vals := Scan(OneValueFormat(TogglePrefix(k)), line);
      if |vals| == 1 {
        HandleModeNotification(k, vals[0]);
      }
    }

    /** handle_line_. */
    method HandleLine(line: string)
      modifies `identity, `status, `channelTable, `published
      ensures CoreModel() == Notifications.HandleLine(old(CoreModel()), line)
    {
      match Classify(line) {
        case Reply =>
        case Manufacturer => HandleIdentityReply(TextManufacturer, Trim(line[5..]));
        case Model => HandleIdentityReply(TextModel, Trim(line[5..]));
        case Firmware => HandleIdentityReply(TextFirmware, Trim(line[5..]));
        case Serial => HandleIdentityReply(TextSerial, Trim(line[5..]));
        case Volume => HandleVolumeReport(line);
        case ZoneChannel => HandleZoneChannelLine(line);
        case ZoneReport => HandleZoneLine(line);
        case Ptt => HandlePttLine(line);
        case Power => HandlePowerLine(line);
        case Mode(k) => HandleModeLine(line, k);
        case TableEntry => HandleChannelTableLine(line);
        case Unsolicited => Publish(registry.textSensors, [(Text(TextLastMessage), TextValue(line))]);
        case Other =>
      }
    }

    // ----- The connection -----

    /** init_bluetooth_, with the outcome of the stack bring-up as a parameter. */
    method InitBluetooth(stackOk: bool)
      modifies `link
      ensures CoreModel() == Setup(old(CoreModel()), stackOk)
    {
      if link.btInitialized {
        return;
      }
      if !stackOk {
        return;
      }
      link := link.(btInitialized := true);
    }

    /** parse_mac_address_. */
    method ParseMacAddress() returns (ok: bool, addr: seq<byte>)
      ensures ok <==> ParseMac(link.macAddress).Some?
      ensures ok ==> addr == ParseMac(link.macAddress).value
    {
      ok, addr := ParseMacBytes(link.macAddress);
    }

    /** start_connection_, with the result of esp_spp_connect as a parameter. */
    method StartConnection(connectOk: bool)
      modifies `link, `transport
      ensures CoreModel() == Session.StartConnection(old(CoreModel()), connectOk)
    {
      if !link.sppReady {
        return;
      }
      if link.macAddress == [] {
        return;
      }
      var ok, addr := ParseMacAddress();
      if !ok {
        return;
      }
      transport := transport + [Connect(addr)];
      if !connectOk {
        return;
      }
      link := link.(connecting := true);
    }

    /** loop(), with millis(), the connect result and the position fix as parameters. */
    method Loop(now: uint32, connectOk: bool, fix: Option<string>)
      modifies `link, `location, `transport
      ensures CoreModel() == Session.Loop(old(CoreModel()), now, connectOk, fix)
    {
      if link.btInitialized && link.sppReady && !link.connected && !link.connecting && link.macAddress != [] {
        if link.lastReconnectAttempt == 0 || Uint32Sub(now, link.lastReconnectAttempt) > link.reconnectDelay {
          link := link.(lastReconnectAttempt := now);
          StartConnection(connectOk);
          var d := ToUint32(link.reconnectDelay * 2);
          if d > RECONNECT_DELAY_MAX {
            d := RECONNECT_DELAY_MAX;
          }
          link := link.(reconnectDelay := d);
        }
      }
      if link.connected && location.locationMode && fix.Some? {
        if Uint32Sub(now, location.lastLocationSent) >= location.locationInterval {
          SendCommand("AT+WGTLOC=000000," + fix.value);
          location := location.(lastLocationSent := now);
        }
      }
    }

    /** publish_connection_state_. */
    method PublishConnectionState()
      modifies `published
      ensures CoreModel() == PublishConnection(old(CoreModel()))
    {
      Publish(registry.binarySensors, [(Binary(BinConnected), BoolValue(link.connected))]);
    }

    /** The bytes of one DATA event, assembled into lines. */
    method Receive(data: seq<byte>)
      modifies `rxBuffer, `identity, `status, `channelTable, `published
      ensures StateModel() == Feed(old(StateModel()), data)
    {
      for i := 0 to |data|
        invariant StateModel() == Feed(old(StateModel()), data[..i])
      {
        assert data[..i + 1][..i] == data[..i];
        var c := data[i] as char;
        if data[i] == CR {
        } else if data[i] == LF {
          if rxBuffer != [] {
            var line := rxBuffer;
            rxBuffer := [];
            HandleLine(line);
          }
        } else {
          rxBuffer := rxBuffer + [c];
        }
      }
      assert data[..|data|] == data;
    }

    /** on_spp_event_. */
    method OnSppEvent(e: SppEvent)
      modifies this
      ensures StateModel() == OnEvent(old(StateModel()), e)
    {
      match e {
        case InitEvent =>
          link := link.(sppReady := true, reconnectDelay := RECONNECT_DELAY_INITIAL, lastReconnectAttempt := 0);
        case OpenEvent(h) =>
          link := link.(connected := true, connecting := false, sppHandle := h,
            reconnectDelay := RECONNECT_DELAY_INITIAL, lastReconnectAttempt := 0);
          PublishConnectionState();
          SendHandshakeCommands();
        case CloseEvent =>
          link := link.(connected := false, connecting := false, sppHandle := 0);
          PublishConnectionState();
        case DataEvent(data) => Receive(data);
        case OtherEvent =>
      }
    }
  }
}
