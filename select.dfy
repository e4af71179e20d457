/**
 * XRSRadioSelect: the zone and channel selects. A select pulls its option
 * list from the component, shows the option for the current zone or
 * channel when it is set up, and turns a chosen option back into a zone or
 * zone/channel request.
 */
module Select {
  import opened Base
  import opened CLib
  import opened Types
  import opened ChannelTable
  import opened RadioState
  import opened Commands
  import opened Notifications
  import opened Radio

  // ----- Reading a chosen option -----

  /** "Zone %hhu". */
  function ZoneChoiceFormat(): seq<Directive>
  {
    Literals("Zone") + [Whitespace, UnsignedChar]
  }

  /** "Z%hhu / Ch %hhu", built from its tail: " %hhu", "Ch %hhu", " / Ch %hhu". */
  function ChannelChoiceFormat(): seq<Directive>
  {
    [Literal('Z'), UnsignedChar] + SlashPart()
  }

  function NumberPart(): seq<Directive>
  {
    [Whitespace, UnsignedChar]
  }

  function ChPart(): seq<Directive>
  {
    Literals("Ch") + NumberPart()
  }

  function SlashPart(): seq<Directive>
  {
    [Whitespace, Literal('/'), Whitespace] + ChPart()
  }

  /** The fallback formats "%hhu" and "%hhu,%hhu". */
  function ZoneNumberFormat(): seq<Directive>
  {
    [UnsignedChar]
  }

  function ChannelNumbersFormat(): seq<Directive>
  {
    [UnsignedChar, Literal(','), UnsignedChar]
  }

  /** control() for the zone select: "Zone <n>", else a bare number; None when neither reads. */
  function ParseZoneChoice(value: string): (r: Option<byte>)
  {
    var vals := Scan(ZoneChoiceFormat(), value);
    if |vals| == 1 then Some(ToByte(vals[0]))
    else
      var nums := Scan(ZoneNumberFormat(), value);
      if |nums| == 1 then Some(ToByte(nums[0])) else None
  }

  /** control() for the channel select: "Z<z> / Ch <c>", else "<z>,<c>"; None when neither reads. */
  function ParseChannelChoice(value: string): (r: Option<(byte, byte)>)
  {
    var vals := Scan(ChannelChoiceFormat(), value);
    if |vals| == 2 then Some((ToByte(vals[0]), ToByte(vals[1])))
    else
      var nums := Scan(ChannelNumbersFormat(), value);
      if |nums| == 2 then Some((ToByte(nums[0]), ToByte(nums[1]))) else None
  }

  /** Whether control() accepts the value, and so publishes it as the select's state. */
  predicate Accepts(kind: SelectType, value: string)
  {
    match kind
    case SelectZone => ParseZoneChoice(value).Some?
    case SelectChannel => ParseChannelChoice(value).Some?
  }

  /** What control() asks of the component. */
  function Control(kind: SelectType, c: Core, value: string): Core
  {
    match kind
    case SelectZone =>
      (match ParseZoneChoice(value)
       case None => c
       case Some(z) => SetTargetZone(c, z))
    case SelectChannel =>
      (match ParseChannelChoice(value)
       case None => c
       case Some(p) => SetTargetZoneChannel(c, p.0, p.1))
  }

  // ----- Options and the initial choice -----

  /** refresh_options: the component's zone or channel option list. */
  function OptionsFor(kind: SelectType, c: Core): seq<string>
  {
    match kind
    case SelectZone => ZoneOptions(c.channelTable)
    case SelectChannel => ChannelOptions(c.channelTable)
  }

  /** setup()'s channel choice as written: the first option that begins with the channel text. */
  function PrefixChoice(desired: string, options: seq<string>): (r: string)
    ensures (forall i :: 0 <= i < |options| ==> !StartsWith(options[i], desired)) ==> r == desired
    ensures (exists i :: 0 <= i < |options| && StartsWith(options[i], desired)) ==>
      exists i :: 0 <= i < |options| && r == options[i] && StartsWith(r, desired)
        && forall j :: 0 <= j < i ==> !StartsWith(options[j], desired)
  {
    if options == [] then desired
    else if StartsWith(options[0], desired) then options[0]
    else
      var r := PrefixChoice(desired, options[1..]);
      assert forall i :: 1 <= i < |options| ==> options[i] == options[1..][i - 1];
      r
  }

  /**
   * The channel choice as intended: the first option that is the channel
   * text itself or the channel text followed by ": " and a label.
   */
  function ChannelChoice(desired: string, options: seq<string>): (r: string)
    ensures r == desired || (r in options && StartsWith(r, desired + ":"))
  {
    if options == [] then desired
    else if options[0] == desired || StartsWith(options[0], desired + ":") then options[0]
    else ChannelChoice(desired, options[1..])
  }

  /**
   * The option setup() shows: the current zone's text (std::find either
   * finds that very text or falls back to it), or the current channel's
   * option.
   */
  function InitialChoice(kind: SelectType, c: Core, options: seq<string>): string
  {
    match kind
    case SelectZone => ZoneText(CurrentZoneByte(c))
    case SelectChannel => ChannelChoice(ChannelText(CurrentZoneByte(c), CurrentChannelByte(c)), options)
  }

  // ----- Round trips -----

  /** " <n>" is read by " %hhu". */
  lemma ScanNumberPart(n: nat, tail: string)
    requires tail == [] || !IsDigit(tail[0])
    ensures Scan(NumberPart(), " " + (DecimalText(n) + tail)) == [ToByte(n) as int]
  {
    var d := DecimalText(n) + tail;
    assert d[0] == DecimalText(n)[0];
    SkipOneBlank(NumberPart(), d);
    ScanNumberStep(NumberPart()[1..], n, tail);
  }

  /** "Ch " is matched by the literal part of "Ch %hhu". */
  lemma ScanChPart(d: string)
    ensures Scan(ChPart(), "Ch " + d) == Scan(NumberPart(), " " + d)
  {
    assert "Ch " + d == "Ch" + (" " + d);
    ScanLiterals("Ch", NumberPart(), " " + d);
  }

  /** " / " in front of text that does not start with a blank is matched by " / ". */
  lemma ScanSeparator(fmt: seq<Directive>, s: string)
    requires |fmt| >= 3 && fmt[0] == Whitespace && fmt[1] == Literal('/') && fmt[2] == Whitespace
    requires s == [] || !IsSpace(s[0])
    ensures Scan(fmt, " / " + s) == Scan(fmt[3..], s)
  {
    var t := "/ " + s;
    assert " / " + s == " " + t;
    SkipOneBlank(fmt, t);
    assert t[0] == '/' && t[1..] == " " + s;
    ScanLiteralStep(fmt[1..], t);
    assert fmt[1..][1..] == fmt[2..];
    SkipOneBlank(fmt[2..], s);
    assert fmt[2..][1..] == fmt[3..];
  }

  /** " / " is matched by the front of " / Ch %hhu". */
  lemma ScanSlashPart(d: string)
    ensures Scan(SlashPart(), " / Ch " + d) == Scan(ChPart(), "Ch " + d)
  {
    assert " / Ch " + d == " / " + ("Ch " + d);
    ScanSeparator(SlashPart(), "Ch " + d);
    assert SlashPart()[3..] == ChPart();
  }

  /** " / Ch " followed by a number is read by the tail of the channel format. */
  lemma ScanChannelSeparator(n: nat, tail: string)
    requires tail == [] || !IsDigit(tail[0])
    ensures Scan(SlashPart(), " / Ch " + (DecimalText(n) + tail)) == [ToByte(n) as int]
  {
    ScanSlashPart(DecimalText(n) + tail);
    ScanChPart(DecimalText(n) + tail);
    ScanNumberPart(n, tail);
  }

  /** "Z%hhu" reads the zone number after a 'Z'. */
  lemma ScanZoneFront(fmt: seq<Directive>, z: nat, rest: string)
    requires |fmt| >= 2 && fmt[0] == Literal('Z') && fmt[1] == UnsignedChar
    requires rest == [] || !IsDigit(rest[0])
    ensures Scan(fmt, "Z" + (DecimalText(z) + rest)) == [ToByte(z) as int] + Scan(fmt[2..], rest)
  {
    var s := "Z" + (DecimalText(z) + rest);
    ScanLiteralStep(fmt, s);
    assert s[1..] == DecimalText(z) + rest;
    ScanNumberStep(fmt[1..], z, rest);
    assert fmt[1..][1..] == fmt[2..];
  }

  /** The channel format reads a channel text back, whatever follows from a ':' on. */
  lemma ScanChannelText(z: nat, ch: nat, tail: string)
    requires tail == [] || tail[0] == ':'
    ensures Scan(ChannelChoiceFormat(), ChannelText(z, ch) + tail) == [ToByte(z) as int, ToByte(ch) as int]
  {
    var rest := " / Ch " + (DecimalText(ch) + tail);
    assert ChannelText(z, ch) + tail == "Z" + (DecimalText(z) + rest);
    assert rest[0] == ' ';
    ScanZoneFront(ChannelChoiceFormat(), z, rest);
    assert ChannelChoiceFormat()[2..] == SlashPart();
    ScanChannelSeparator(ch, tail);
  }

  /** Every channel option names its own zone and channel. */
  lemma ChannelOptionRoundTrip(e: ChannelInfo)
    ensures ParseChannelChoice(OptionText(e)) == Some((e.zone, e.channel))
  {
    if e.labelText != [] {
      ScanChannelText(e.zone, e.channel, ": " + e.labelText);
    } else {
      ScanChannelText(e.zone, e.channel, []);
      assert ChannelText(e.zone, e.channel) + [] == ChannelText(e.zone, e.channel);
    }
  }

  /**
   * Choosing any option of the channel select requests that option's zone
   * and channel: the default list when the table is empty, the table's
   * entries otherwise.
   */
  lemma ChannelOptionsRoundTrip(t: seq<ChannelInfo>, k: nat)
    requires k < |ChannelOptions(t)|
    ensures t == [] ==> ParseChannelChoice(ChannelOptions(t)[k]) == Some((DefaultZone(k), DefaultChannel(k)))
    ensures t != [] ==> ParseChannelChoice(ChannelOptions(t)[k]) == Some((SortByKey(t)[k].zone, SortByKey(t)[k].channel))
  {
    if t == [] {
      DefaultOptionRoundTrip(k);
    } else {
      assert ChannelOptions(t) == OptionTexts(SortByKey(t));
      ChannelOptionRoundTrip(SortByKey(t)[k]);
    }
  }

  /** Every default channel option reads back as its zone and channel. */
  lemma DefaultOptionRoundTrip(k: nat)
    requires k < DEFAULT_CHANNEL_COUNT
    ensures ParseChannelChoice(DefaultChannelOptions()[k]) == Some((DefaultZone(k), DefaultChannel(k)))
  {
    var o := ChannelText(DefaultZone(k), DefaultChannel(k));
    assert DefaultChannelOptions()[k] == o;
    ScanChannelText(DefaultZone(k), DefaultChannel(k), []);
    assert o + [] == o;
  }

  /** The zone format reads a zone text back. */
  lemma ZoneTextRoundTrip(z: byte)
    ensures ParseZoneChoice(ZoneText(z)) == Some(z)
  {
    var f := ZoneChoiceFormat();
    assert f == Literals("Zone") + [Whitespace, UnsignedChar];
    assert ZoneText(z) == "Zone" + (" " + (DecimalText(z) + []));
    ScanLiterals("Zone", [Whitespace, UnsignedChar], " " + (DecimalText(z) + []));
    var d := DecimalText(z) + [];
    assert d[0] == DecimalText(z)[0];
    SkipOneBlank([Whitespace, UnsignedChar], d);
    ScanNumberStep([UnsignedChar], z, []);
  }

  /** Choosing any option of the zone select requests that option's zone. */
  lemma ZoneOptionsRoundTrip(t: seq<ChannelInfo>, k: nat)
    requires k < |ZoneValues(t)|
    ensures ParseZoneChoice(ZoneOptions(t)[k]) == Some(ZoneValues(t)[k])
  {
    ZoneTextRoundTrip(ZoneValues(t)[k]);
  }

  /** The bare-number fallbacks: "<z>" for a zone, "<z>,<c>" for a channel. */
  lemma ZoneNumberChoice(z: byte)
    ensures ParseZoneChoice(DecimalText(z)) == Some(z)
  {
    var d := DecimalText(z);
    assert d[0] != 'Z' by {
      assert IsDigit(d[0]);
    }
    ScanNumberStep(ZoneNumberFormat(), z, []);
    assert d + [] == d;
  }

  lemma ChannelNumbersChoice(z: byte, ch: byte)
    ensures ParseChannelChoice(DecimalText(z) + "," + DecimalText(ch)) == Some((z, ch))
  {
    var dz := DecimalText(z);
    var rest := "," + (DecimalText(ch) + []);
    var s := dz + rest;
    assert DecimalText(z) + "," + DecimalText(ch) == s;
    assert s[0] == dz[0] && IsDigit(dz[0]);
    ScanLiteralMismatch(ChannelChoiceFormat(), s);
    var f := ChannelNumbersFormat();
    var vals := Scan(f, s);
    assert vals == [z as int, ch as int] by {
      ScanNumberStep(f, z, rest);
      ScanLiteralStep(f[1..], rest);
      assert rest[1..] == DecimalText(ch) + [];
      ScanNumberStep(f[2..], ch, []);
      assert f[2..][1..] == [];
    }
  }

  /** A literal directive that does not match the first character ends the scan. */
  lemma ScanLiteralMismatch(fmt: seq<Directive>, s: string)
    requires fmt != [] && fmt[0].Literal? && (s == [] || s[0] != fmt[0].c)
    ensures Scan(fmt, s) == []
  {
  }

  /** A value that reads as neither form is refused and asks nothing of the component. */
  lemma RefusedChoice(kind: SelectType, c: Core, value: string)
    requires !Accepts(kind, value)
    ensures Control(kind, c, value) == c
  {
  }

  /**
   * Choosing an offered zone while connected sends "AT+WGZS=<zone>" for a
   * zone in 1..8, and changes nothing else.
   */
  lemma ZoneChoiceSends(c: Core, k: nat)
    requires k < |ZoneValues(c.channelTable)|
    requires 1 <= ZoneValues(c.channelTable)[k] <= 8 && c.link.connected && c.link.sppHandle != 0
    ensures Control(SelectZone, c, ZoneOptions(c.channelTable)[k]).transport
      == c.transport + [Write(c.link.sppHandle, "AT+WGZS=" + DecimalText(ZoneValues(c.channelTable)[k]) + "\r\n")]
  {
    ZoneOptionsRoundTrip(c.channelTable, k);
  }

  // ----- The initial choice -----

  /** The zone select starts on the current zone, read back as that zone. */
  lemma InitialZoneChoice(c: Core, options: seq<string>)
    ensures ParseZoneChoice(InitialChoice(SelectZone, c, options)) == Some(CurrentZoneByte(c))
  {
    ZoneTextRoundTrip(CurrentZoneByte(c));
  }

  /** The channel select starts on an option that reads back as the current zone and channel. */
  lemma InitialChannelChoice(c: Core, options: seq<string>)
    ensures ParseChannelChoice(InitialChoice(SelectChannel, c, options))
      == Some((CurrentZoneByte(c), CurrentChannelByte(c)))
  {
    var z, ch := CurrentZoneByte(c), CurrentChannelByte(c);
    var desired := ChannelText(z, ch);
    var r := ChannelChoice(desired, options);
    if r == desired {
      ScanChannelText(z, ch, []);
      assert desired + [] == desired;
    } else {
      assert r[..|desired|] == desired;
      assert r == desired + r[|desired|..];
      assert r[|desired|..][0] == ':';
      ScanChannelText(z, ch, r[|desired|..]);
    }
  }

  /**
   * The prefix match as written can land on another channel: with only
   * zone 1 channel 40 in the table and the radio on zone 1 channel 4, the
   * select starts on "Z1 / Ch 40".
   */
  lemma PrefixChoiceWrongChannel()
    ensures PrefixChoice(ChannelText(1, 4), ChannelOptions([ChannelInfo(1, 40, "", "", "")])) == "Z1 / Ch 40"
    ensures ParseChannelChoice("Z1 / Ch 40") == Some((1, 40))
  {
    var t := [ChannelInfo(1, 40, "", "", "")];
    assert SortByKey(t) == t;
    assert DecimalText(40) == "40" by {
      assert DecimalText(4) == "4";
    }
    assert DecimalText(1) == "1";
    assert OptionTexts(t) == [OptionText(t[0])];
    assert ChannelText(1, 40) == "Z1 / Ch 40";
    assert OptionText(t[0]) == ChannelText(1, 40) + "";
    assert ChannelText(1, 40) + "" == ChannelText(1, 40);
    assert OptionTexts(SortByKey(t)) == ["Z1 / Ch 40"];
    assert ChannelOptions(t) == ["Z1 / Ch 40"];
    assert ChannelText(1, 4) == "Z1 / Ch 4";
    assert StartsWith("Z1 / Ch 40", "Z1 / Ch 4");
    ChannelOptionRoundTrip(t[0]);
  }

  // ----- The select entity -----

  class XRSRadioSelect {
    var parent: XRSRadioComponent?
    var kind: SelectType
    /** This entity, as the component's lists name it. */
    var entity: EntityId
    var options: seq<string>
    /** The publish_state calls this select has made, in order. */
    var states: seq<string>

    constructor (p: XRSRadioComponent?, k: SelectType, e: EntityId)
      ensures parent == p && kind == k && entity == e && options == [] && states == []
    {
      parent, kind, entity, options, states := p, k, e, [], [];
    }

    /** refresh_options. */
    method RefreshOptions()
      modifies `options
      ensures parent == null ==> options == []
      ensures parent != null ==> options == OptionsFor(kind, parent.CoreModel())
    {
      options := [];
      if parent == null {
        return;
      }
      var opts: seq<string>;
      match kind {
        case SelectZone => opts := parent.GetZoneOptions();
        case SelectChannel => opts := parent.GetChannelOptions();
      }
      options := opts;
    }

    /** setup(): register with the component, load the options, show the current choice. */
    method Setup()
      modifies `options, `states, (if parent == null then {} else {parent})`registry
      ensures parent == null ==> options == old(options) && states == old(states)
      ensures parent != null ==> parent.CoreModel() == RegisterSelect(old(parent.CoreModel()), kind, entity)
      ensures parent != null ==> options == OptionsFor(kind, parent.CoreModel())
      ensures parent != null ==> states == old(states) + [InitialChoice(kind, parent.CoreModel(), options)]
    {
      if parent == null {
        return;
      }
      parent.RegisterSelect(kind, entity);
      RefreshOptions();
      match kind {
        case SelectZone => PublishZoneChoice();
        case SelectChannel => PublishChannelChoice();
      }
    }

    /** The zone branch of setup(): the option equal to the current zone's text, or that text. */
    method PublishZoneChoice()
      requires parent != null
      modifies `states
      ensures states == old(states) + [ZoneText(CurrentZoneByte(parent.CoreModel()))]
    {
      var zone := parent.GetCurrentZone();
      var desired := "Zone " + DecimalText(zone);
      var i := 0;
      while i < |options| && options[i] != desired
        invariant 0 <= i <= |options|
        invariant forall j :: 0 <= j < i ==> options[j] != desired
      {
        i := i + 1;
      }
      if i < |options| {
        states := states + [options[i]];
      } else {
        states := states + [desired];
      }
    }

    /** The channel branch of setup(): the first option for the current zone and channel. */
    method PublishChannelChoice()
      requires parent != null
      modifies `states
      ensures states == old(states)
        + [ChannelChoice(ChannelText(CurrentZoneByte(parent.CoreModel()), CurrentChannelByte(parent.CoreModel())), options)]
    {
      var z := parent.GetCurrentZone();
      var ch := parent.GetCurrentChannel();
      var desired := ChannelText(z, ch);
      var best := desired;
      var i := 0;
      while i < |options|
        invariant 0 <= i <= |options|
        invariant ChannelChoice(desired, options) == ChannelChoice(desired, options[i..])
      {
        assert options[i..][1..] == options[i + 1..];
        if options[i] == desired || StartsWith(options[i], desired + ":") {
          best := options[i];
          break;
        }
        i := i + 1;
      }
      assert i == |options| ==> options[i..] == [];
      states := states + [best];
    }

    /** control(): read the chosen option and ask the component for it. */
    method ChooseOption(value: string)
      modifies `states, (if parent == null then {} else {parent})`transport
      ensures parent == null ==> states == old(states)
      ensures parent != null ==> parent.CoreModel() == Control(kind, old(parent.CoreModel()), value)
      ensures parent != null ==> states == old(states) + (if Accepts(kind, value) then [value] else [])
    {
      if parent == null {
        return;
      }
      match kind {
        case SelectZone =>
          var zone := ParseZoneChoice(value);
          if zone.None? {
            return;
          }
          parent.SetTargetZone(zone.value);
          states := states + [value];
        case SelectChannel =>
          var pair := ParseChannelChoice(value);
          if pair.None? {
            return;
          }
          parent.SetTargetZoneChannel(pair.value.0, pair.value.1);
          states := states + [value];
      }
    }
  }
}
