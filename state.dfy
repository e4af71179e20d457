/**
 * The state of XRSRadioComponent as values: every field of the component,
 * the entities registered with it, and two logs that stand for its effects on
 * the outside world: the publish_state calls it makes on entities and the
 * calls it makes on the SPP transport. This module also holds the pieces every
 * operation shares: the fan-out over a subscriber list, send_command_, and the
 * channel-label publication.
 */
module RadioState {
  import opened Base
  import opened CLib
  import opened Types
  import opened ChannelTable

  /** Upper bound of the reconnect backoff, RECONNECT_DELAY_MAX_MS. */
  const RECONNECT_DELAY_MAX: uint32 := 60000
  /** The backoff delay the component starts with and resets to on INIT and OPEN. */
  const RECONNECT_DELAY_INITIAL: uint32 := 2000
  /** The volume range the radio accepts. */
  const VOLUME_MAX := 31

  /** The Bluetooth link and its reconnect backoff. */
  datatype Link = Link(
    macAddress: string,
    btInitialized: bool,
    sppReady: bool,
    connected: bool,
    connecting: bool,
    sppHandle: uint32,
    reconnectDelay: uint32,
    lastReconnectAttempt: uint32)

  /** The identification the radio reports on AT+GMI?, AT+GMM?, AT+GMR? and AT+GSN?. */
  datatype Identity = Identity(manufacturer: string, model: string, firmware: string, serial: string)

  /** What the component caches of the radio's state. */
  datatype Status = Status(
    currentChannel: int,
    currentZone: int,
    currentVolume: int,
    pttActive: bool,
    pttData: bool,
    pttTimer: int,
    powerState: int,
    powerLow: bool,
    scanning: bool,
    duplexEnabled: bool,
    silentMemory: bool,
    quietMemory: bool,
    quietMode: bool)

  /** The registered entities, one list per category. */
  datatype Registry = Registry(
    numericSensors: seq<Subscription>,
    binarySensors: seq<Subscription>,
    textSensors: seq<Subscription>,
    numbers: seq<Subscription>,
    switches: seq<Subscription>,
    selects: seq<Subscription>)

  /** The location upload settings and when the last upload went out. */
  datatype Location = Location(locationMode: bool, locationInterval: uint32, lastLocationSent: uint32)

  /**
   * Every field of the component except the receive buffer, grouped as
   * above, with the two effect logs: the publish_state calls made and the
   * SPP calls made.
   */
  datatype Core = Core(
    link: Link,
    identity: Identity,
    status: Status,
    registry: Registry,
    location: Location,
    channelTable: seq<ChannelInfo>,
    published: seq<Publication>,
    transport: seq<TransportCall>)

  /** The component: its fields and the line being assembled from received bytes. */
  datatype State = State(rxBuffer: string, core: Core)

  /** A freshly constructed component, with the initial values its class declares. */
  function Initial(): (c: Core)
    ensures !c.link.btInitialized && !c.link.sppReady && !c.link.connected && !c.link.connecting
    ensures c.link.sppHandle == 0 && c.link.reconnectDelay == 2000 && c.link.lastReconnectAttempt == 0
    ensures c.link.macAddress == []
    ensures c.identity.manufacturer == [] && c.identity.model == [] && c.identity.firmware == [] && c.identity.serial == []
    ensures c.status.currentChannel == 0 && c.status.currentZone == 0 && c.status.currentVolume == 0
    ensures !c.status.pttActive && !c.status.pttData && c.status.pttTimer == 0
    ensures c.status.powerState == 0 && !c.status.powerLow
    ensures !c.status.scanning && !c.status.duplexEnabled && !c.status.silentMemory
    ensures !c.status.quietMemory && !c.status.quietMode
    ensures c.registry.numericSensors == [] && c.registry.binarySensors == [] && c.registry.textSensors == []
    ensures c.registry.numbers == [] && c.registry.switches == [] && c.registry.selects == []
    ensures c.location == Location(false, 60000, 0)
    ensures c.channelTable == [] && c.published == [] && c.transport == []
  {
    Core(
      Link("", false, false, false, false, 0, RECONNECT_DELAY_INITIAL, 0),
      Identity("", "", "", ""),
      Status(0, 0, 0, false, false, 0, 0, false, false, false, false, false, false),
      Registry([], [], [], [], [], []),
      Location(false, 60000, 0),
      [],
      [], [])
  }

  // ----- Subscriber lists -----

  /** The subscriber list that holds entities of a tag's category. */
  function SubscribersOf(c: Core, tag: Tag): seq<Subscription>
  {
    match tag
    case Numeric(_) => c.registry.numericSensors
    case Binary(_) => c.registry.binarySensors
    case Text(_) => c.registry.textSensors
    case Number(_) => c.registry.numbers
    case Switch(_) => c.registry.switches
    case Select(_) => c.registry.selects
  }

  predicate SameCategory(a: Tag, b: Tag)
  {
    (a.Numeric? && b.Numeric?) || (a.Binary? && b.Binary?) || (a.Text? && b.Text?)
    || (a.Number? && b.Number?) || (a.Switch? && b.Switch?) || (a.Select? && b.Select?)
  }

  /** Each subscriber list holds only entities of its own category. */
  predicate WellTyped(c: Core)
  {
    (forall k :: 0 <= k < |c.registry.numericSensors| ==> c.registry.numericSensors[k].tag.Numeric?)
    && (forall k :: 0 <= k < |c.registry.binarySensors| ==> c.registry.binarySensors[k].tag.Binary?)
    && (forall k :: 0 <= k < |c.registry.textSensors| ==> c.registry.textSensors[k].tag.Text?)
    && (forall k :: 0 <= k < |c.registry.numbers| ==> c.registry.numbers[k].tag.Number?)
    && (forall k :: 0 <= k < |c.registry.switches| ==> c.registry.switches[k].tag.Switch?)
    && (forall k :: 0 <= k < |c.registry.selects| ==> c.registry.selects[k].tag.Select?)
  }

  // ----- Fan-out -----

  /** The value of the first rule for the tag, if any: the if / else-if chain of a publish loop. */
  function RuleFor(rules: seq<(Tag, Value)>, tag: Tag): (r: Option<Value>)
    ensures r.Some? <==> exists k :: 0 <= k < |rules| && rules[k].0 == tag
    ensures r.Some? ==> exists k :: 0 <= k < |rules| && rules[k] == (tag, r.value)
  {
    if rules == [] then None
    else if rules[0].0 == tag then Some(rules[0].1)
    else
      var r := RuleFor(rules[1..], tag);
      assert r.Some? ==> exists k :: 0 <= k < |rules[1..]| && rules[1..][k] == (tag, r.value);
      assert forall k :: 1 <= k < |rules| ==> rules[k] == rules[1..][k - 1];
      r
  }

  /** What one subscriber receives from one publish loop. */
  function Emit(s: Subscription, rules: seq<(Tag, Value)>): seq<Publication>
  {
    match RuleFor(rules, s.tag)
    case None => []
    case Some(v) => [Publication(s.tag, s.entity, v)]
  }

  /**
   * `for (auto &p : list) if (p.first == T1) publish(v1) else if ...`: the
   * publications one loop over a subscriber list makes, in list order.
   */
  function FanOut(subs: seq<Subscription>, rules: seq<(Tag, Value)>): (r: seq<Publication>)
    ensures |r| <= |subs|
  {
    if subs == [] then [] else FanOut(subs[..|subs| - 1], rules) + Emit(subs[|subs| - 1], rules)
  }

  /** A matching subscriber, as the publication it should receive. */
  predicate Receives(subs: seq<Subscription>, rules: seq<(Tag, Value)>, p: Publication)
  {
    exists k :: 0 <= k < |subs| && subs[k].tag == p.tag && subs[k].entity == p.entity
      && RuleFor(rules, p.tag) == Some(p.value)
  }

  /**
   * A loop publishes exactly to the subscribers whose tag has a rule, each
   * the value of its tag's rule, and to nobody else.
   */
  lemma {:induction false} FanOutTargets(subs: seq<Subscription>, rules: seq<(Tag, Value)>)
    ensures forall p :: p in FanOut(subs, rules) <==> Receives(subs, rules, p)
  {
    if subs != [] {
      var u := subs[..|subs| - 1];
      FanOutTargets(u, rules);
      forall p
        ensures p in FanOut(subs, rules) <==> Receives(subs, rules, p)
      {
        if Receives(u, rules, p) {
          var k :| 0 <= k < |u| && u[k].tag == p.tag && u[k].entity == p.entity
            && RuleFor(rules, p.tag) == Some(p.value);
          assert subs[k] == u[k];
        }
        if Receives(subs, rules, p) {
          var k :| 0 <= k < |subs| && subs[k].tag == p.tag && subs[k].entity == p.entity
            && RuleFor(rules, p.tag) == Some(p.value);
          if k < |u| {
            assert u[k] == subs[k];
          }
        }
      }
    }
  }

  /** With no subscriber of any ruled tag, a loop publishes nothing. */
  lemma {:induction false} FanOutNone(subs: seq<Subscription>, rules: seq<(Tag, Value)>)
    requires forall k :: 0 <= k < |subs| ==> RuleFor(rules, subs[k].tag).None?
    ensures FanOut(subs, rules) == []
  {
    if subs != [] {
      FanOutNone(subs[..|subs| - 1], rules);
    }
  }

  /** The loop over a prefix extended by one subscriber. */
  lemma FanOutStep(subs: seq<Subscription>, rules: seq<(Tag, Value)>, i: nat)
    requires i < |subs|
    ensures FanOut(subs[..i + 1], rules) == FanOut(subs[..i], rules) + Emit(subs[i], rules)
  {
    assert subs[..i + 1][..i] == subs[..i];
  }

  /** Nothing but the cached radio state, the table and the publication log differs. */
  predicate SameSession(a: Core, b: Core)
  {
    a.link == b.link && a.registry == b.registry && a.location == b.location && a.transport == b.transport
  }

  /** Publish to every subscriber in the list that has the tag. */
  function PublishTo(c: Core, subs: seq<Subscription>, tag: Tag, v: Value): Core
  {
    c.(published := c.published + FanOut(subs, [(tag, v)]))
  }

  // ----- Output to the radio -----

  /**
   * send_command_: with an open connection and a non-zero handle the command
   * is written followed by CR LF; otherwise it is dropped.
   */
  function SendCommand(c: Core, cmd: string): (r: Core)
    ensures c.link.connected && c.link.sppHandle != 0 ==> r == c.(transport := c.transport + [Write(c.link.sppHandle, cmd + "\r\n")])
    ensures !(c.link.connected && c.link.sppHandle != 0) ==> r == c
  {
    if !c.link.connected || c.link.sppHandle == 0 then c
    else c.(transport := c.transport + [Write(c.link.sppHandle, cmd + "\r\n")])
  }

  /** The lines the radio receives, in order: the writes on the transport log. */
  function Written(calls: seq<TransportCall>): (r: seq<string>)
    ensures |r| <= |calls|
  {
    if calls == [] then []
    else
      var w := Written(calls[..|calls| - 1]);
      match calls[|calls| - 1]
      case Write(_, data) => w + [data]
      case Connect(_) => w
  }

  /** Sending a command adds that one line to what the radio receives, or nothing. */
  lemma SendCommandWritten(c: Core, cmd: string)
    ensures c.link.connected && c.link.sppHandle != 0 ==> Written(SendCommand(c, cmd).transport) == Written(c.transport) + [cmd + "\r\n"]
    ensures !(c.link.connected && c.link.sppHandle != 0) ==> Written(SendCommand(c, cmd).transport) == Written(c.transport)
  {
    var t := c.transport + [Write(c.link.sppHandle, cmd + "\r\n")];
    assert t[..|t| - 1] == c.transport;
  }

  // ----- Texts and labels -----

  /** The text a power-state code is shown as; "" for codes the radio does not define. */
  function PowerText(code: int): (r: string)
    ensures r != [] <==> 0 <= code <= 5
  {
    match code
    case 0 => "Booting"
    case 1 => "Running"
    case 2 => "Reset initiated"
    case 3 => "Power down initiated"
    case 4 => "Power down"
    case 5 => "Low battery"
    case _ => ""
  }

  /** The text the PTT state is shown as. */
  function PttText(active: bool, data: bool): (r: string)
    ensures r == "Idle" <==> !active
    ensures r == "Transmitting voice+data" <==> active && data
  {
    if !active then "Idle" else if data then "Transmitting voice+data" else "Transmitting voice"
  }

  /** get_current_zone / get_current_channel: the cached int narrowed to uint8_t. */
  function CurrentZoneByte(c: Core): (z: byte)
    ensures 0 <= c.status.currentZone < 256 ==> z == c.status.currentZone
    ensures (c.status.currentZone - z) % 256 == 0
  {
    ToByte(c.status.currentZone)
  }

  function CurrentChannelByte(c: Core): (ch: byte)
    ensures 0 <= c.status.currentChannel < 256 ==> ch == c.status.currentChannel
    ensures (c.status.currentChannel - ch) % 256 == 0
  {
    ToByte(c.status.currentChannel)
  }

  /**
   * The channel label text: the table's label for the current zone and
   * channel (both narrowed to uint8_t), or "Z<zone> / Ch <channel>" printed
   * with %u when there is none.
   */
  function ChannelLabelText(c: Core): (r: string)
    ensures r != []
    ensures Label(c.channelTable, CurrentZoneByte(c), CurrentChannelByte(c)) != [] ==>
      r == Label(c.channelTable, CurrentZoneByte(c), CurrentChannelByte(c))
  {
    var l := Label(c.channelTable, CurrentZoneByte(c), CurrentChannelByte(c));
    if l != [] then l
    else "Z" + UnsignedText(c.status.currentZone) + " / Ch " + UnsignedText(c.status.currentChannel)
  }

  /** The fallback label for a zone and channel in range is the channel's option text. */
  lemma FallbackLabelIsOption(c: Core)
    requires 0 <= c.status.currentZone < 256 && 0 <= c.status.currentChannel < 256
    requires Label(c.channelTable, CurrentZoneByte(c), CurrentChannelByte(c)) == []
    ensures ChannelLabelText(c) == ChannelText(c.status.currentZone, c.status.currentChannel)
  {
  }

  /** publish_channel_label_: the label goes to every channel-label text sensor. */
  function PublishChannelLabel(c: Core): (r: Core)
    ensures r == c.(published := r.published)
    ensures r.published == c.published + FanOut(c.registry.textSensors, [(Text(TextChannelLabel), TextValue(ChannelLabelText(c)))])
  {
    PublishTo(c, c.registry.textSensors, Text(TextChannelLabel), TextValue(ChannelLabelText(c)))
  }
}
