/**
 * handle_line_ and the handlers it dispatches to: what one complete line
 * received from the radio does to the component's state.
 */
module Notifications {
  import opened Base
  import opened CLib
  import opened Types
  import opened ATParser
  import opened ChannelTable
  import opened RadioState
  import opened Commands

  /** std::string::compare(0, len, prefix) == 0 with the length check in front. */
  predicate StartsWith(line: string, prefix: string)
  {
    |prefix| <= |line| && forall i :: 0 <= i < |prefix| ==> line[i] == prefix[i]
  }

  /** The branch of handle_line_ a line takes. */
  datatype LineKind =
    | Reply          // "OK" or "ERROR"
    | Manufacturer   // +GMI:
    | Model          // +GMM:
    | Firmware       // +GMR:
    | Serial         // +GSN:
    | Volume         // +WGAV:
    | ZoneChannel    // +WGCHS:
    | ZoneReport     // +WHZS:
    | Ptt            // +WGPTT:
    | Power          // +WGPOW:
    | Mode(k: Toggle) // +WGSCAN:, +WGDUP:, +WGCSM:, +WGSQM:, +WGSSQ:
    | TableEntry     // +WGCHSQ:
    | Unsolicited    // any other line starting with '+'
    | Other          // anything else

  /** The prefix that selects a branch; "" for the three branches not chosen by a prefix. */
  function KindPrefix(k: LineKind): string
  {
    match k
    case Manufacturer => "+GMI:"
    case Model => "+GMM:"
    case Firmware => "+GMR:"
    case Serial => "+GSN:"
    case Volume => "+WGAV:"
    case ZoneChannel => "+WGCHS:"
    case ZoneReport => "+WHZS:"
    case Ptt => "+WGPTT:"
    case Power => "+WGPOW:"
    case Mode(t) => TogglePrefix(t)
    case TableEntry => "+WGCHSQ:"
    case _ => ""
  }

  predicate Prefixed(k: LineKind)
  {
    !(k.Reply? || k.Unsolicited? || k.Other?)
  }

  /** handle_line_'s chain of tests, in the order it makes them. */
  function Classify(line: string): LineKind
  {
    if line == "OK" || line == "ERROR" then Reply
    else if StartsWith(line, "+GMI:") then Manufacturer
    else if StartsWith(line, "+GMM:") then Model
    else if StartsWith(line, "+GMR:") then Firmware
    else if StartsWith(line, "+GSN:") then Serial
    else if StartsWith(line, "+WGAV:") then Volume
    else if StartsWith(line, "+WGCHS:") then ZoneChannel
    else if StartsWith(line, "+WHZS:") then ZoneReport
    else if StartsWith(line, "+WGPTT:") then Ptt
    else if StartsWith(line, "+WGPOW:") then Power
    else if StartsWith(line, "+WGSCAN:") then Mode(Scanning)
    else if StartsWith(line, "+WGDUP:") then Mode(Duplex)
    else if StartsWith(line, "+WGCSM:") then Mode(SilentMemory)
    else if StartsWith(line, "+WGSQM:") then Mode(QuietMemory)
    else if StartsWith(line, "+WGSSQ:") then Mode(QuietMode)
    else if StartsWith(line, "+WGCHSQ:") then TableEntry
    else if line != [] && line[0] == '+' then Unsolicited
    else Other
  }

  /** A line that is the prefix followed by more text starts with the prefix. */
  lemma StartsWithAppend(prefix: string, rest: string)
    ensures StartsWith(prefix + rest, prefix)
  {
  }

  /**
   * The prefixes handle_line_ tests are pairwise incompatible, so a line
   * that starts with one of them takes that one's branch, whatever the
   * order of the tests.
   */
  lemma ClassifyByPrefix(line: string, k: LineKind)
    requires Prefixed(k)
    requires StartsWith(line, KindPrefix(k))
    ensures Classify(line) == k
  {
    match k
    case Manufacturer => ClassifyIdentity(line, k);
    case Model => ClassifyIdentity(line, k);
    case Firmware => ClassifyIdentity(line, k);
    case Serial => ClassifyIdentity(line, k);
    case Mode(t) => ClassifyMode(line, t);
    case TableEntry =>
      assert line[1] == 'W' && line[2] == 'G' && line[3] == 'C' && line[4] == 'H' && line[6] == 'Q';
    case _ => ClassifyReport(line, k);
  }

  lemma ClassifyIdentity(line: string, k: LineKind)
    requires k.Manufacturer? || k.Model? || k.Firmware? || k.Serial?
    requires StartsWith(line, KindPrefix(k))
    ensures Classify(line) == k
  {
    assert line[1] == 'G' && line[2] == KindPrefix(k)[2] && line[3] == KindPrefix(k)[3];
  }

  lemma ClassifyReport(line: string, k: LineKind)
    requires k.Volume? || k.ZoneChannel? || k.ZoneReport? || k.Ptt? || k.Power?
    requires StartsWith(line, KindPrefix(k))
    ensures Classify(line) == k
  {
    assert line[1] == 'W' && line[2] == KindPrefix(k)[2] && line[3] == KindPrefix(k)[3] && line[4] == KindPrefix(k)[4];
  }

  lemma ClassifyMode(line: string, t: Toggle)
    requires StartsWith(line, TogglePrefix(t))
    ensures Classify(line) == Mode(t)
  {
    assert line[1] == 'W' && line[2] == 'G';
    match t
    case Scanning => assert line[3] == 'S' && line[4] == 'C';
    case Duplex => assert line[3] == 'D';
    case SilentMemory => assert line[3] == 'C' && line[4] == 'S';
    case QuietMemory => assert line[3] == 'S' && line[4] == 'Q';
    case QuietMode => assert line[3] == 'S' && line[4] == 'S';
  }

  /** The branch a line takes, when chosen by a prefix, is one whose prefix the line starts with. */
  lemma ClassifySound(line: string)
    ensures Prefixed(Classify(line)) ==> StartsWith(line, KindPrefix(Classify(line)))
    ensures Classify(line) == Other <==> line == [] || (line[0] != '+' && line != "OK" && line != "ERROR")
  {
    ClassifyPrefixed(line);
    ClassifyOther(line);
  }

  lemma ClassifyPrefixed(line: string)
    ensures Prefixed(Classify(line)) ==> StartsWith(line, KindPrefix(Classify(line)))
  {
  }

  lemma ClassifyOther(line: string)
    ensures Classify(line) == Other <==> line == [] || (line[0] != '+' && line != "OK" && line != "ERROR")
  {
  }

  /** A line starting with '+' and none of the prefixes is an unsolicited message, and only such a line. */
  lemma ClassifyUnsolicited(line: string)
    ensures Classify(line) == Unsolicited
      <==> line != [] && line[0] == '+' && forall k :: Prefixed(k) ==> !StartsWith(line, KindPrefix(k))
  {
    if Classify(line) == Unsolicited {
      forall k | Prefixed(k)
        ensures !StartsWith(line, KindPrefix(k))
      {
        if StartsWith(line, KindPrefix(k)) {
          ClassifyByPrefix(line, k);
        }
      }
    }
    ClassifySound(line);
  }

  // ----- The handlers -----

  /** What the component keeps of the radio's state is always self-consistent. */
  predicate StatusInv(s: Status)
  {
    && 0 <= s.currentVolume <= VOLUME_MAX
    && s.pttTimer >= 0
    && (s.pttData ==> s.pttActive)
    && (s.pttTimer > 0 ==> s.pttData)
    && (s.powerLow <==> s.powerState == 5)
  }

  /** A fresh component's status is consistent. */
  lemma InitialStatusInv()
    ensures StatusInv(Initial().status)
  {
  }

  /**
   * handle_ptt_notification_: active for states 1 and 2, data only for 2,
   * and the timer kept only while data is transmitted and it is positive.
   */
  function HandlePtt(c: Core, state: int, timer: int): (r: Core)
    ensures SameSession(c, r) && r.channelTable == c.channelTable
    ensures r.status.pttActive <==> state == 1 || state == 2
    ensures r.status.pttData <==> state == 2
    ensures state == 2 && timer > 0 ==> r.status.pttTimer == timer
    ensures !(state == 2 && timer > 0) ==> r.status.pttTimer == 0
    ensures r.status == c.status.(pttActive := r.status.pttActive, pttData := r.status.pttData, pttTimer := r.status.pttTimer)
    ensures r.identity == c.identity
    ensures StatusInv(c.status) ==> StatusInv(r.status)
  {
    var active := state == 1 || state == 2;
    var data := state == 2;
    var t := if state == 2 && timer > 0 then timer else 0;
    var c1 := c.(status := c.status.(pttActive := active, pttData := data, pttTimer := t));
    var rules := [(Binary(BinPttActive), BoolValue(active)), (Binary(BinPttData), BoolValue(data))];
    var c2 := c1.(published := c1.published + FanOut(c.registry.binarySensors, rules));
    var c3 := PublishTo(c2, c.registry.numericSensors, Numeric(SensorPttTimer), IntValue(t));
    PublishTo(c3, c.registry.textSensors, Text(TextPttState), TextValue(PttText(active, data)))
  }

  /**
   * The PTT flags go to the binary sensors first, then the timer (0 unless
   * data is being sent) to the timer sensors, then the state text.
   */
  lemma HandlePttPublishes(c: Core, state: int, timer: int)
    ensures var r := HandlePtt(c, state, timer);
      var flags := [(Binary(BinPttActive), BoolValue(r.status.pttActive)), (Binary(BinPttData), BoolValue(r.status.pttData))];
      r.published == c.published
        + FanOut(c.registry.binarySensors, flags)
        + FanOut(c.registry.numericSensors, [(Numeric(SensorPttTimer), IntValue(r.status.pttTimer))])
        + FanOut(c.registry.textSensors, [(Text(TextPttState), TextValue(PttText(state == 1 || state == 2, state == 2)))])
  {
  }

  /** handle_power_notification_: low power exactly for state 5. */
  function HandlePower(c: Core, state: int): (r: Core)
    ensures SameSession(c, r) && r.channelTable == c.channelTable
    ensures r.status.powerState == state && (r.status.powerLow <==> state == 5)
    ensures StatusInv(c.status) ==> StatusInv(r.status)
  {
    var c1 := c.(status := c.status.(powerState := state, powerLow := state == 5));
    var c2 := PublishTo(c1, c.registry.binarySensors, Binary(BinPowerLow), BoolValue(state == 5));
    var txt := PowerText(state);
    if txt == [] then c2 else PublishTo(c2, c.registry.textSensors, Text(TextPowerState), TextValue(txt))
  }

  /** The low-power flag goes out first, then the state text, which only a defined code has. */
  lemma HandlePowerPublishes(c: Core, state: int)
    ensures HandlePower(c, state).published == c.published
      + FanOut(c.registry.binarySensors, [(Binary(BinPowerLow), BoolValue(state == 5))])
      + (if 0 <= state <= 5 then FanOut(c.registry.textSensors, [(Text(TextPowerState), TextValue(PowerText(state)))]) else [])
  {
  }

  /** handle_scan_notification_ and its four siblings: any non-zero value means on. */
  function HandleMode(c: Core, k: Toggle, enabled: int): (r: Core)
    ensures SameSession(c, r) && r.channelTable == c.channelTable
    ensures ToggleState(r.status, k) <==> enabled != 0
    ensures forall j :: j != k ==> ToggleState(r.status, j) == ToggleState(c.status, j)
    ensures r.identity == c.identity
    ensures StatusInv(c.status) ==> StatusInv(r.status)
  {
    var s := WithToggle(c.status, k, enabled != 0);
    forall j | j != k
      ensures ToggleState(s, j) == ToggleState(c.status, j)
    {
      WithToggleKeeps(c.status, k, enabled != 0, j);
    }
    PublishToggle(c.(status := s), k)
  }

  /** The new flag goes to the mode's binary sensors, then to its switches. */
  lemma HandleModePublishes(c: Core, k: Toggle, enabled: int)
    ensures HandleMode(c, k, enabled).published == c.published
      + FanOut(c.registry.binarySensors, [(Binary(ToggleBinary(k)), BoolValue(enabled != 0))])
      + FanOut(c.registry.switches, [(Switch(ToggleSwitch(k)), BoolValue(enabled != 0))])
  {
  }

  /** The +WGCHS: report: cache zone and channel, publish both, then the label. */
  function HandleZoneChannel(c: Core, zone: int, channel: int): (r: Core)
    ensures SameSession(c, r) && r.channelTable == c.channelTable
    ensures r.status == c.status.(currentZone := zone, currentChannel := channel)
    ensures r.identity == c.identity
    ensures StatusInv(c.status) ==> StatusInv(r.status)
  {
    var c1 := c.(status := c.status.(currentZone := zone, currentChannel := channel));
    var rules := [(Numeric(SensorZone), IntValue(zone)), (Numeric(SensorChannel), IntValue(channel))];
    PublishChannelLabel(c1.(published := c1.published + FanOut(c.registry.numericSensors, rules)))
  }

  /**
   * A zone/channel report publishes the zone and the channel to the numeric
   * sensors, then the label of the new position to the label sensors.
   */
  lemma HandleZoneChannelPublishes(c: Core, zone: int, channel: int)
    ensures var r := HandleZoneChannel(c, zone, channel);
      r.published == c.published
        + FanOut(c.registry.numericSensors, [(Numeric(SensorZone), IntValue(zone)), (Numeric(SensorChannel), IntValue(channel))])
        + FanOut(c.registry.textSensors, [(Text(TextChannelLabel), TextValue(ChannelLabelText(r)))])
  {
  }

  /** The +WHZS: report: cache the zone, publish it, then the label. */
  function HandleZone(c: Core, zone: int): (r: Core)
    ensures SameSession(c, r) && r.channelTable == c.channelTable
    ensures r.status == c.status.(currentZone := zone)
    ensures r.identity == c.identity
    ensures StatusInv(c.status) ==> StatusInv(r.status)
  {
    var c1 := c.(status := c.status.(currentZone := zone));
    PublishChannelLabel(PublishTo(c1, c.registry.numericSensors, Numeric(SensorZone), IntValue(zone)))
  }

  /** A zone report publishes the zone, then the label of the new position. */
  lemma HandleZonePublishes(c: Core, zone: int)
    ensures var r := HandleZone(c, zone);
      r.published == c.published
        + FanOut(c.registry.numericSensors, [(Numeric(SensorZone), IntValue(zone))])
        + FanOut(c.registry.textSensors, [(Text(TextChannelLabel), TextValue(ChannelLabelText(r)))])
  {
  }

  /** refresh_options on every select, in registration order. */
  function Refreshes(selects: seq<Subscription>): (r: seq<Publication>)
    ensures |r| == |selects|
    ensures forall k :: 0 <= k < |selects| ==> r[k] == Publication(selects[k].tag, selects[k].entity, RefreshOptions)
  {
    seq(|selects|, k requires 0 <= k < |selects| => Publication(selects[k].tag, selects[k].entity, RefreshOptions))
  }

  /**
   * handle_channel_table_line_: upsert the entry, publish the label when the
   * entry is the current channel, and have every select refresh its options.
   */
  function HandleChannelTableLine(c: Core, line: string): (r: Core)
    ensures SameSession(c, r) && r.status == c.status && r.identity == c.identity
    ensures UniqueKeys(c.channelTable) ==> UniqueKeys(r.channelTable)
  {
    match ParseTableLine(line)
    case None => c
    case Some(info) =>
      UpsertKeepsUniqueWhenUnique(c.channelTable, info);
      var c1 := c.(channelTable := Upsert(c.channelTable, info));
      var c2 :=
        if info.zone as int == c.status.currentZone && info.channel as int == c.status.currentChannel
        then PublishChannelLabel(c1) else c1;
      c2.(published := c2.published + Refreshes(c.registry.selects))
  }

  lemma UpsertKeepsUniqueWhenUnique(t: seq<ChannelInfo>, info: ChannelInfo)
    ensures UniqueKeys(t) ==> UniqueKeys(Upsert(t, info))
  {
    if UniqueKeys(t) {
      UpsertKeepsUnique(t, info);
    }
  }

  /** The sscanf formats of the numeric notifications: the literal prefix, a blank, then "%d" or "%d,%d". */
  function OneValueFormat(prefix: string): seq<Directive>
  {
    Literals(prefix) + [Whitespace, Decimal]
  }

  function TwoValueFormat(prefix: string): seq<Directive>
  {
    Literals(prefix) + [Whitespace, Decimal, Literal(','), Decimal]
  }

  /** The identification replies: cache the text after the five-character tag and publish it. */
  function HandleIdentity(c: Core, t: TextSensorType, text: string): (r: Core)
    ensures SameSession(c, r) && r.status == c.status && r.channelTable == c.channelTable
    ensures t == TextManufacturer ==> r.identity == c.identity.(manufacturer := text)
    ensures t == TextModel ==> r.identity == c.identity.(model := text)
    ensures t == TextFirmware ==> r.identity == c.identity.(firmware := text)
    ensures t == TextSerial ==> r.identity == c.identity.(serial := text)
    ensures r.published == c.published + FanOut(c.registry.textSensors, [(Text(t), TextValue(text))])
  {
    var id :=
      match t
      case TextManufacturer => c.identity.(manufacturer := text)
      case TextModel => c.identity.(model := text)
      case TextFirmware => c.identity.(firmware := text)
      case _ => c.identity.(serial := text);
    PublishTo(c.(identity := id), c.registry.textSensors, Text(t), TextValue(text))
  }

  /**
   * The volume report: atoi from the eighth character on, clamped to 0..31.
   * A report of six characters or fewer reads as 0.
   */
  function ReportedVolume(line: string): (v: int)
    ensures 0 <= v <= VOLUME_MAX
  {
    ClampVolume(if |line| >= 7 then Atoi(line[7..]) else 0)
  }

  /** The volume report as the radio prints it: "+WGAV: <v>". */
  function VolumeReportText(v: nat): string
  {
    "+WGAV: " + DecimalText(v)
  }

  /** A printed volume is read back, clamped to the radio's range. */
  lemma ReportedVolumeReads(v: nat)
    ensures ReportedVolume(VolumeReportText(v)) == ClampVolume(v)
    ensures 0 <= v <= VOLUME_MAX ==> ReportedVolume(VolumeReportText(v)) == v
  {
    var d := DecimalText(v);
    assert VolumeReportText(v)[7..] == d;
    SkipSpaceNone(d);
    assert d == d + [];
    ScanSignedDecimal(v, []);
  }

  /** The unsolicited-message branch: the whole line goes to every last-message sensor. */
  function HandleUnsolicited(c: Core, line: string): (r: Core)
    ensures SameSession(c, r) && r.status == c.status && r.channelTable == c.channelTable
  {
    PublishTo(c, c.registry.textSensors, Text(TextLastMessage), TextValue(line))
  }

  /**
   * handle_line_. Whatever the line, it never touches the link, the
   * registrations or the location settings, never writes to the radio,
   * keeps the cached status consistent and the table's keys unique.
   */
  function HandleLine(c: Core, line: string): (r: Core)
    ensures SameSession(c, r)
    ensures StatusInv(c.status) ==> StatusInv(r.status)
    ensures UniqueKeys(c.channelTable) ==> UniqueKeys(r.channelTable)
  {
    match Classify(line)
    case Reply => c
    case Manufacturer => HandleIdentity(c, TextManufacturer, Trim(line[5..]))
    case Model => HandleIdentity(c, TextModel, Trim(line[5..]))
    case Firmware => HandleIdentity(c, TextFirmware, Trim(line[5..]))
    case Serial => HandleIdentity(c, TextSerial, Trim(line[5..]))
    case Volume => PublishVolume(c.(status := c.status.(currentVolume := ReportedVolume(line))))
    case ZoneChannel =>
      var vals := Scan(TwoValueFormat("+WGCHS:"), line);
      if |vals| == 2 then HandleZoneChannel(c, vals[0], vals[1]) else c
    case ZoneReport =>
      var vals := Scan(OneValueFormat("+WHZS:"), line);
      if |vals| == 1 then HandleZone(c, vals[0]) else c
    case Ptt =>
      var vals := Scan(TwoValueFormat("+WGPTT:"), line);
      HandlePtt(c, if |vals| >= 1 then vals[0] else 0, if |vals| == 2 then vals[1] else 0)
    case Power =>
      var vals := Scan(OneValueFormat("+WGPOW:"), line);
      if |vals| == 1 then HandlePower(c, vals[0]) else c
    case Mode(k) =>
      var vals := Scan(OneValueFormat(TogglePrefix(k)), line);
      if |vals| == 1 then HandleMode(c, k, vals[0]) else c
    case TableEntry => HandleChannelTableLine(c, line)
    case Unsolicited => HandleUnsolicited(c, line)
    case Other => c
  }

  // ----- The branches of handle_line_, one at a time -----

  lemma ZoneChannelBranch(c: Core, line: string)
    requires Classify(line).ZoneChannel?
    ensures var vals := Scan(TwoValueFormat("+WGCHS:"), line);
      HandleLine(c, line) == if |vals| == 2 then HandleZoneChannel(c, vals[0], vals[1]) else c
  {
  }

  lemma ZoneBranch(c: Core, line: string)
    requires Classify(line).ZoneReport?
    ensures var vals := Scan(OneValueFormat("+WHZS:"), line);
      HandleLine(c, line) == if |vals| == 1 then HandleZone(c, vals[0]) else c
  {
  }

  lemma PttBranch(c: Core, line: string)
    requires Classify(line).Ptt?
    ensures var vals := Scan(TwoValueFormat("+WGPTT:"), line);
      HandleLine(c, line) == HandlePtt(c, if |vals| >= 1 then vals[0] else 0, if |vals| == 2 then vals[1] else 0)
  {
  }

  lemma PowerBranch(c: Core, line: string)
    requires Classify(line).Power?
    ensures var vals := Scan(OneValueFormat("+WGPOW:"), line);
      HandleLine(c, line) == if |vals| == 1 then HandlePower(c, vals[0]) else c
  {
  }

  lemma ModeBranch(c: Core, line: string, k: Toggle)
    requires Classify(line) == Mode(k)
    ensures var vals := Scan(OneValueFormat(TogglePrefix(k)), line);
      HandleLine(c, line) == if |vals| == 1 then HandleMode(c, k, vals[0]) else c
  {
  }

  // ----- Properties of handle_line_ -----

  /**
   * An identification reply stores the trimmed text after its five-character
   * tag in its own field, and publishes it to the sensors of that field.
   */
  lemma IdentityReply(c: Core, line: string, k: LineKind)
    requires k.Manufacturer? || k.Model? || k.Firmware? || k.Serial?
    requires StartsWith(line, KindPrefix(k))
    ensures var r := HandleLine(c, line);
      var text := Trim(line[5..]);
      var t := if k.Manufacturer? then TextManufacturer else if k.Model? then TextModel
        else if k.Firmware? then TextFirmware else TextSerial;
      && SameSession(c, r) && r.status == c.status && r.channelTable == c.channelTable
      && (k.Manufacturer? ==> r.identity == c.identity.(manufacturer := text))
      && (k.Model? ==> r.identity == c.identity.(model := text))
      && (k.Firmware? ==> r.identity == c.identity.(firmware := text))
      && (k.Serial? ==> r.identity == c.identity.(serial := text))
      && r.published == c.published + FanOut(c.registry.textSensors, [(Text(t), TextValue(text))])
  {
    ClassifyByPrefix(line, k);
  }

  /**
   * A +WGAV report stores the reported volume and publishes it to the volume
   * sensors and then to the volume numbers; nothing else changes.
   */
  lemma VolumeLine(c: Core, line: string)
    requires StartsWith(line, "+WGAV:")
    ensures var v := ReportedVolume(line);
      HandleLine(c, line) == c.(status := c.status.(currentVolume := v), published := c.published
        + FanOut(c.registry.numericSensors, [(Numeric(SensorVolume), IntValue(v))])
        + FanOut(c.registry.numbers, [(Number(NumberVolume), IntValue(v))]))
  {
    ClassifyByPrefix(line, Volume);
  }

  /** The radio's "+WGAV: <v>" report caches v when in range, and the clamped value otherwise. */
  lemma VolumeReport(c: Core, v: nat)
    ensures HandleLine(c, VolumeReportText(v)).status.currentVolume == ClampVolume(v)
    ensures 0 <= v <= VOLUME_MAX ==> HandleLine(c, VolumeReportText(v)).status.currentVolume == v
  {
    StartsWithAppend("+WGAV:", " " + DecimalText(v));
    assert VolumeReportText(v) == "+WGAV:" + (" " + DecimalText(v));
    VolumeLine(c, VolumeReportText(v));
    ReportedVolumeReads(v);
  }

  /** "OK", "ERROR" and lines that neither start with '+' nor carry a known prefix change nothing. */
  lemma IgnoredLines(c: Core, line: string)
    requires line == "OK" || line == "ERROR" || line == [] || line[0] != '+'
    ensures HandleLine(c, line) == c
  {
    ClassifySound(line);
  }

  /** An unsolicited '+' line goes, whole, to every last-message sensor, and changes nothing else. */
  lemma UnsolicitedLine(c: Core, line: string)
    requires line != [] && line[0] == '+'
    requires forall k :: Prefixed(k) ==> !StartsWith(line, KindPrefix(k))
    ensures HandleLine(c, line) == c.(published := c.published
      + FanOut(c.registry.textSensors, [(Text(TextLastMessage), TextValue(line))]))
  {
    ClassifyUnsolicited(line);
  }

  /**
   * A +WGPTT line is never dropped: whatever follows the tag, the PTT state
   * is set and published (an unreadable state reads as 0, idle).
   */
  lemma PttLineApplied(c: Core, line: string)
    requires StartsWith(line, "+WGPTT:")
    ensures exists state, timer :: HandleLine(c, line) == HandlePtt(c, state, timer)
  {
    ClassifyByPrefix(line, Ptt);
    var vals := Scan(TwoValueFormat("+WGPTT:"), line);
    assert HandleLine(c, line) == HandlePtt(c, if |vals| >= 1 then vals[0] else 0, if |vals| == 2 then vals[1] else 0);
  }

  /** A +WGCHS report that does not yield exactly two numbers changes nothing. */
  lemma ZoneChannelNeedsBoth(c: Core, line: string)
    requires StartsWith(line, "+WGCHS:")
    requires |Scan(TwoValueFormat("+WGCHS:"), line)| != 2
    ensures HandleLine(c, line) == c
  {
    ClassifyByPrefix(line, ZoneChannel);
  }

  /** ",%d" over a comma and a printed number. */
  lemma ScanCommaNumber(fmt: seq<Directive>, b: nat)
    requires |fmt| == 2 && fmt[0] == Literal(',') && fmt[1] == Decimal
    ensures Scan(fmt, "," + DecimalText(b)) == [b]
  {
    var tail := "," + DecimalText(b);
    ScanLiteralStep(fmt, tail);
    assert tail[1..] == DecimalText(b) + [];
    ScanNumberStep(fmt[1..], b, []);
  }

  /** " %d,%d" over a blank and two printed numbers. */
  lemma ScanPair(fmt: seq<Directive>, a: nat, b: nat)
    requires |fmt| == 4 && fmt[0] == Whitespace && fmt[1] == Decimal && fmt[2] == Literal(',') && fmt[3] == Decimal
    ensures Scan(fmt, [' '] + (DecimalText(a) + ("," + DecimalText(b)))) == [a, b]
  {
    var body := DecimalText(a) + ("," + DecimalText(b));
    assert body[0] == DecimalText(a)[0];
    SkipOneBlank(fmt, body);
    ScanNumberStep(fmt[1..], a, "," + DecimalText(b));
    assert fmt[1..][1..] == fmt[2..];
    ScanCommaNumber(fmt[2..], b);
  }

  /** " %d" over a blank and a printed number. */
  lemma ScanSingle(fmt: seq<Directive>, a: nat)
    requires |fmt| == 2 && fmt[0] == Whitespace && fmt[1] == Decimal
    ensures Scan(fmt, [' '] + DecimalText(a)) == [a]
  {
    SkipOneBlank(fmt, DecimalText(a));
    assert DecimalText(a) == DecimalText(a) + [];
    ScanNumberStep(fmt[1..], a, []);
  }

  /** A notification as the radio prints it: "<tag> <a>,<b>". */
  function TwoValueReport(prefix: string, a: nat, b: nat): string
  {
    prefix + ([' '] + (DecimalText(a) + ("," + DecimalText(b))))
  }

  /** Scanning a printed two-number report reads back both numbers. */
  lemma ScanTwoValues(prefix: string, a: nat, b: nat)
    ensures Scan(TwoValueFormat(prefix), TwoValueReport(prefix, a, b)) == [a, b]
  {
    var rest := TwoValueFormat(prefix)[|prefix|..];
    assert TwoValueFormat(prefix) == Literals(prefix) + rest;
    ScanLiterals(prefix, rest, [' '] + (DecimalText(a) + ("," + DecimalText(b))));
    ScanPair(rest, a, b);
  }

  /**
   * The radio's "+WGCHS: <zone>,<channel>" report sets the cached zone and
   * channel to exactly the numbers printed.
   */
  lemma ZoneChannelReport(c: Core, zone: nat, channel: nat)
    ensures HandleLine(c, TwoValueReport("+WGCHS:", zone, channel)).status.currentZone == zone
    ensures HandleLine(c, TwoValueReport("+WGCHS:", zone, channel)).status.currentChannel == channel
  {
    var line := TwoValueReport("+WGCHS:", zone, channel);
    StartsWithAppend("+WGCHS:", [' '] + (DecimalText(zone) + ("," + DecimalText(channel))));
    ClassifyByPrefix(line, ZoneChannel);
    ScanTwoValues("+WGCHS:", zone, channel);
  }

  /**
   * The cached position follows the radio's reports only: a +WGCHS report
   * is the one line that moves the channel, and it and +WHZS the only ones
   * that move the zone.
   */
  lemma PositionFromReportsOnly(c: Core, line: string)
    ensures !Classify(line).ZoneChannel? ==> HandleLine(c, line).status.currentChannel == c.status.currentChannel
    ensures !Classify(line).ZoneChannel? && !Classify(line).ZoneReport?
      ==> HandleLine(c, line).status.currentZone == c.status.currentZone
  {
    match Classify(line)
    case Reply =>
    case Manufacturer =>
    case Model =>
    case Firmware =>
    case Serial =>
    case Volume =>
    case ZoneChannel =>
    case ZoneReport => ZoneBranch(c, line);
    case Ptt => PttBranch(c, line);
    case Power => PowerBranch(c, line);
    case Mode(k) => ModeBranch(c, line, k);
    case TableEntry =>
    case Unsolicited =>
    case Other =>
  }

  /** A notification as the radio prints it: "<tag> <a>". */
  function OneValueReport(prefix: string, a: nat): string
  {
    prefix + ([' '] + DecimalText(a))
  }

  /** Scanning a printed one-number report reads back the number. */
  lemma ScanOneValue(prefix: string, a: nat)
    ensures Scan(OneValueFormat(prefix), OneValueReport(prefix, a)) == [a]
  {
    var rest := OneValueFormat(prefix)[|prefix|..];
    assert OneValueFormat(prefix) == Literals(prefix) + rest;
    ScanLiterals(prefix, rest, [' '] + DecimalText(a));
    ScanSingle(rest, a);
  }

  /**
   * The radio's "+WGSCAN: <n>" report (and its four siblings) sets the mode
   * on exactly when n is non-zero, so the echo of a set_* command confirms
   * the flag the command cached.
   */
  lemma ModeReport(c: Core, k: Toggle, n: nat)
    ensures ToggleState(HandleLine(c, OneValueReport(TogglePrefix(k), n)).status, k) <==> n != 0
    ensures ToggleState(HandleLine(SetToggle(c, k, n != 0), OneValueReport(TogglePrefix(k), n)).status, k)
      == ToggleState(SetToggle(c, k, n != 0).status, k)
  {
    StartsWithAppend(TogglePrefix(k), [' '] + DecimalText(n));
    ClassifyByPrefix(OneValueReport(TogglePrefix(k), n), Mode(k));
    ScanOneValue(TogglePrefix(k), n);
    SetToggleEffect(c, k, n != 0);
  }

  /**
   * The radio's "+WGPTT: <state>,<timer>" report: transmitting for states 1
   * and 2, data for 2, and the timer as printed while data is transmitted.
   */
  lemma PttReport(c: Core, state: nat, timer: nat)
    ensures var s := HandleLine(c, TwoValueReport("+WGPTT:", state, timer)).status;
      && (s.pttActive <==> state == 1 || state == 2)
      && (s.pttData <==> state == 2)
      && (state == 2 ==> s.pttTimer == timer)
  {
    StartsWithAppend("+WGPTT:", [' '] + (DecimalText(state) + ("," + DecimalText(timer))));
    ClassifyByPrefix(TwoValueReport("+WGPTT:", state, timer), Ptt);
    ScanTwoValues("+WGPTT:", state, timer);
  }

  /**
   * A channel-table line with at least two fields upserts its entry: the
   * key reads back the new label and every other key its old one, and every
   * select is asked to refresh its options, last.
   */
  lemma TableLineEffect(c: Core, line: string, zone: byte, channel: byte)
    requires UniqueKeys(c.channelTable)
    requires ParseTableLine(line).Some?
    ensures var r := HandleChannelTableLine(c, line);
      var info := ParseTableLine(line).value;
      && Label(r.channelTable, zone, channel)
        == (if zone == info.zone && channel == info.channel then info.labelText else Label(c.channelTable, zone, channel))
      && r.published[|r.published| - |c.registry.selects|..] == Refreshes(c.registry.selects)
  {
    var info := ParseTableLine(line).value;
    LabelAfterUpsert(c.channelTable, info, zone, channel);
  }

  /**
   * An accepted table line republishes the channel label only when its key
   * is the current zone and channel, and then with the line's own label (or
   * the fallback text when that is empty); in every case the selects are
   * told to refresh, after the label.
   */
  lemma TableLinePublishes(c: Core, line: string)
    requires UniqueKeys(c.channelTable)
    requires ParseTableLine(line).Some?
    ensures var r := HandleChannelTableLine(c, line);
      var info := ParseTableLine(line).value;
      var current := info.zone as int == c.status.currentZone && info.channel as int == c.status.currentChannel;
      var labelled := FanOut(c.registry.textSensors, [(Text(TextChannelLabel), TextValue(info.labelText))]);
      var fallback := FanOut(c.registry.textSensors, [(Text(TextChannelLabel), TextValue(ChannelText(info.zone as nat, info.channel as nat)))]);
      && (!current ==> r.published == c.published + Refreshes(c.registry.selects))
      && (current && info.labelText != [] ==> r.published == c.published + labelled + Refreshes(c.registry.selects))
      && (current && info.labelText == [] ==> r.published == c.published + fallback + Refreshes(c.registry.selects))
  {
    var info := ParseTableLine(line).value;
    var c1 := c.(channelTable := Upsert(c.channelTable, info));
    if info.zone as int == c.status.currentZone && info.channel as int == c.status.currentChannel {
      assert CurrentZoneByte(c1) == info.zone && CurrentChannelByte(c1) == info.channel;
      LabelAfterUpsert(c.channelTable, info, info.zone, info.channel);
      if info.labelText == [] {
        FallbackLabelIsOption(c1);
      }
    }
  }

  /** A line the table parser rejects leaves the component as it was. */
  lemma TableLineRejected(c: Core, line: string)
    requires ParseTableLine(line).None?
    ensures HandleChannelTableLine(c, line) == c
  {
  }
}
