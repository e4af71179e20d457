/**
 * The connection life cycle: Bluetooth bring-up, the reconnect backoff of
 * loop(), the SPP events, the periodic location upload, and the invariant
 * every entry point of the component keeps.
 */
module Session {
  import opened Base
  import opened CLib
  import opened Types
  import opened ChannelTable
  import opened RadioState
  import opened Commands
  import opened Notifications
  import opened Framer

  // ----- The radio's address -----

  /** ":%x" repeated n times. */
  function TailFormat(n: nat): (r: seq<Directive>)
    ensures |r| == 2 * n
  {
    if n == 0 then [] else [Literal(':'), Hexadecimal] + TailFormat(n - 1)
  }

  /** parse_mac_address_'s format, "%x:%x:%x:%x:%x:%x". */
  function MacFormat(): seq<Directive>
  {
    [Hexadecimal] + TailFormat(5)
  }

  /**
   * parse_mac_address_: the address must be 17 characters long and yield
   * six hexadecimal numbers, each narrowed to uint8_t.
   */
  function ParseMac(mac: string): (r: Option<seq<byte>>)
    ensures r.Some? ==> |mac| == 17 && |r.value| == 6
  {
    if |mac| != 17 then None
    else
      var vals := Scan(MacFormat(), mac);
      if |vals| != 6 then None else Some(seq(6, i requires 0 <= i < 6 => ToByte(vals[i])))
  }

  /** An upper-case hexadecimal digit. */
  function HexChar(d: nat): (c: char)
    requires d < 16
    ensures IsHexDigit(c) && HexDigitValue(c) == d
  {
    if d < 10 then DigitChar(d) else ('A' as int + d - 10) as char
  }

  /** A byte as printed with "%02X". */
  function HexPair(b: byte): (r: string)
    ensures |r| == 2 && AllHexDigits(r) && !IsSpace(r[0])
  {
    [HexChar(b / 16), HexChar(b % 16)]
  }

  /** The text ":%02X" of each byte in turn. */
  function MacTail(bs: seq<byte>): (r: string)
    ensures |r| == 3 * |bs|
    ensures bs != [] ==> r[0] == ':'
  {
    if bs == [] then [] else ":" + HexPair(bs[0]) + MacTail(bs[1..])
  }

  /** An address written the usual way, "AA:BB:CC:DD:EE:FF". */
  function MacText(addr: seq<byte>): string
    requires |addr| == 6
  {
    HexPair(addr[0]) + MacTail(addr[1..])
  }

  /** "%x" reads back a printed byte, stopping at the next non-digit. */
  lemma ScanHexPair(fmt: seq<Directive>, b: byte, rest: string)
    requires fmt != [] && fmt[0] == Hexadecimal
    requires rest == [] || rest[0] == ':'
    ensures Scan(fmt, HexPair(b) + rest) == [b] + Scan(fmt[1..], rest)
  {
    var t := HexPair(b) + rest;
    assert t[0] == HexPair(b)[0] && t[1] == HexPair(b)[1];
    SkipSpaceNone(t);
    assert HexRun(t[2..]) == 0 by {
      assert t[2..] == rest;
    }
    assert HexRun(t) == 2 by {
      assert t[1..][1..] == t[2..];
    }
    assert t[..2] == HexPair(b);
    assert HexPair(b)[..1] == [HexChar(b / 16)];
    assert HexValue([HexChar(b / 16)]) == b / 16 by {
      assert [HexChar(b / 16)][..0] == [];
    }
    assert HexValue(HexPair(b)) == 16 * (b / 16) + b % 16;
    assert t[2..] == rest;
  }

  /** ":%x" reads back one ":%02X" group. */
  lemma ScanTailStep(n: nat, b: byte, rest: string)
    requires n > 0
    requires rest == [] || rest[0] == ':'
    ensures Scan(TailFormat(n), ":" + (HexPair(b) + rest)) == [b] + Scan(TailFormat(n - 1), rest)
  {
    var fmt := TailFormat(n);
    var t := ":" + (HexPair(b) + rest);
    ScanLiteralStep(fmt, t);
    assert t[1..] == HexPair(b) + rest;
    assert fmt[1..] == [Hexadecimal] + TailFormat(n - 1);
    ScanHexPair(fmt[1..], b, rest);
    assert fmt[1..][1..] == TailFormat(n - 1);
  }

  lemma {:induction false} ScanMacTail(bs: seq<byte>)
    ensures Scan(TailFormat(|bs|), MacTail(bs)) == bs
  {
    if bs != [] {
      var rest := MacTail(bs[1..]);
      assert MacTail(bs) == ":" + (HexPair(bs[0]) + rest);
      ScanTailStep(|bs|, bs[0], rest);
      ScanMacTail(bs[1..]);
      assert bs == [bs[0]] + bs[1..];
    }
  }

  /** The round trip of parse_mac_address_: a printed address parses back to itself. */
  lemma ParseMacText(addr: seq<byte>)
    requires |addr| == 6
    ensures ParseMac(MacText(addr)) == Some(addr)
  {
    var text := MacText(addr);
    var tail := addr[1..];
    var vals := Scan(MacFormat(), text);
    assert vals == addr by {
      ScanHexPair(MacFormat(), addr[0], MacTail(tail));
      assert MacFormat()[1..] == TailFormat(|tail|);
      ScanMacTail(tail);
      assert [addr[0]] + tail == addr;
    }
    assert |text| == 17;
    forall i | 0 <= i < 6
      ensures ToByte(vals[i]) == addr[i]
    {
    }
    assert seq(6, i requires 0 <= i < 6 => ToByte(vals[i])) == addr;
  }

  /** Addresses of any other length are refused before they are scanned. */
  lemma ParseMacLength(mac: string)
    requires |mac| != 17
    ensures ParseMac(mac).None?
  {
  }

  // ----- Bring-up and connection attempts -----

  /** init_bluetooth_, with the outcome of the controller and SPP bring-up as a parameter. */
  function Setup(c: Core, stackOk: bool): (r: Core)
    ensures c.link.btInitialized ==> r == c
    ensures !c.link.btInitialized ==> r == c.(link := c.link.(btInitialized := stackOk))
  {
    if c.link.btInitialized then c
    else if !stackOk then c
    else c.(link := c.link.(btInitialized := true))
  }

  /** start_connection_'s own checks: a ready stack and an address that parses. */
  predicate CanDial(l: Link)
  {
    l.sppReady && l.macAddress != [] && ParseMac(l.macAddress).Some?
  }

  /**
   * start_connection_, with the result of esp_spp_connect as a parameter:
   * only a ready stack and a well-formed address lead to a connect call,
   * and only a successful call marks the link as connecting.
   */
  function StartConnection(c: Core, connectOk: bool): (r: Core)
    ensures r.status == c.status && r.registry == c.registry && r.published == c.published
    ensures r.channelTable == c.channelTable && r.location == c.location
    ensures r.link == c.link.(connecting := r.link.connecting)
    ensures r.link.connecting <==> (c.link.connecting || (CanDial(c.link) && connectOk))
    ensures CanDial(c.link) ==> r.transport == c.transport + [Connect(ParseMac(c.link.macAddress).value)]
    ensures !CanDial(c.link) ==> r.transport == c.transport
  {
    if !c.link.sppReady then c
    else if c.link.macAddress == [] then c
    else
      match ParseMac(c.link.macAddress)
      case None => c
      case Some(addr) =>
        var c1 := c.(transport := c.transport + [Connect(addr)]);
        if connectOk then c1.(link := c1.link.(connecting := true)) else c1
  }

  /** The condition under which loop() attempts a connection. */
  predicate ReconnectDue(l: Link, now: uint32)
  {
    l.btInitialized && l.sppReady && !l.connected && !l.connecting && l.macAddress != []
    && (l.lastReconnectAttempt == 0 || Uint32Sub(now, l.lastReconnectAttempt) > l.reconnectDelay)
  }

  /** The delay doubled in uint32_t arithmetic, then capped at 60 s. */
  function NextDelay(d: uint32): (r: uint32)
    ensures d <= RECONNECT_DELAY_MAX ==> r == if 2 * d > RECONNECT_DELAY_MAX then RECONNECT_DELAY_MAX else 2 * d
    ensures r <= RECONNECT_DELAY_MAX
  {
    var x := ToUint32(d * 2);
    if x > RECONNECT_DELAY_MAX then RECONNECT_DELAY_MAX else x
  }

  /** The reconnect half of loop(): record the attempt, try, then double the delay. */
  function Reconnect(c: Core, now: uint32, connectOk: bool): Core
  {
    if !ReconnectDue(c.link, now) then c
    else
      var c1 := c.(link := c.link.(lastReconnectAttempt := now));
      var c2 := StartConnection(c1, connectOk);
      c2.(link := c2.link.(reconnectDelay := NextDelay(c2.link.reconnectDelay)))
  }

  /** The condition under which loop() uploads the position; fix is None without a valid fix. */
  predicate LocationDue(c: Core, now: uint32, fix: Option<string>)
  {
    c.link.connected && c.location.locationMode && fix.Some?
    && Uint32Sub(now, c.location.lastLocationSent) >= c.location.locationInterval
  }

  /**
   * The location half of loop(): send "AT+WGTLOC=000000,<lat>,<lon>" and
   * note the time. The fix text stands for the two "%.6f" fields.
   */
  function LocationTick(c: Core, now: uint32, fix: Option<string>): Core
  {
    if !LocationDue(c, now, fix) then c
    else
      var c1 := SendCommand(c, "AT+WGTLOC=000000," + fix.value);
      c1.(location := c1.location.(lastLocationSent := now))
  }

  /** loop(), with millis(), the connect result and the position fix as parameters. */
  function Loop(c: Core, now: uint32, connectOk: bool, fix: Option<string>): Core
  {
    LocationTick(Reconnect(c, now, connectOk), now, fix)
  }

  /** publish_connection_state_. */
  function PublishConnection(c: Core): Core
  {
    PublishTo(c, c.registry.binarySensors, Binary(BinConnected), BoolValue(c.link.connected))
  }

  /** on_spp_event_. */
  function OnEvent(s: State, e: SppEvent): State
  {
    match e
    case InitEvent =>
      var l := s.core.link;
      State(s.rxBuffer, s.core.(link := l.(sppReady := true, reconnectDelay := RECONNECT_DELAY_INITIAL, lastReconnectAttempt := 0)))
    case OpenEvent(h) =>
      var l := s.core.link.(connected := true, connecting := false, sppHandle := h,
        reconnectDelay := RECONNECT_DELAY_INITIAL, lastReconnectAttempt := 0);
      State(s.rxBuffer, Handshake(PublishConnection(s.core.(link := l))))
    case CloseEvent =>
      var l := s.core.link.(connected := false, connecting := false, sppHandle := 0);
      State(s.rxBuffer, PublishConnection(s.core.(link := l)))
    case DataEvent(data) => Feed(s, data)
    case OtherEvent => s
  }

  // ----- The backoff -----

  /** With no attempt recorded, a connection is attempted at once. */
  lemma FirstAttemptImmediate(l: Link, now: uint32)
    requires l.btInitialized && l.sppReady && !l.connected && !l.connecting && l.macAddress != []
    requires l.lastReconnectAttempt == 0
    ensures ReconnectDue(l, now)
  {
  }

  /** After an attempt, the next waits until more than the delay has passed (modulo 2^32). */
  lemma NoAttemptWithinDelay(l: Link, now: uint32)
    requires l.lastReconnectAttempt != 0 && Uint32Sub(now, l.lastReconnectAttempt) <= l.reconnectDelay
    ensures !ReconnectDue(l, now)
  {
  }

  /** A connected or connecting link is never re-dialled. */
  lemma NoAttemptWhileBusy(c: Core, now: uint32, connectOk: bool)
    requires c.link.connected || c.link.connecting
    ensures Reconnect(c, now, connectOk) == c
  {
  }

  /**
   * An attempt records its time, issues the connect when the address parses,
   * and doubles the delay right away, capped at 60 s.
   */
  lemma AttemptEffect(c: Core, now: uint32, connectOk: bool)
    requires ReconnectDue(c.link, now)
    requires c.link.reconnectDelay <= RECONNECT_DELAY_MAX
    ensures var r := Reconnect(c, now, connectOk);
      && r.link.lastReconnectAttempt == now
      && r.link.reconnectDelay == (if 2 * c.link.reconnectDelay > RECONNECT_DELAY_MAX then RECONNECT_DELAY_MAX else 2 * c.link.reconnectDelay)
      && (r.link.connecting <==> (ParseMac(c.link.macAddress).Some? && connectOk))
      && r.transport == c.transport + (if ParseMac(c.link.macAddress).Some? then [Connect(ParseMac(c.link.macAddress).value)] else [])
  {
  }

  function Pow2(k: nat): nat
  {
    if k == 0 then 1 else 2 * Pow2(k - 1)
  }

  /** The delay after k failed attempts since the last INIT or OPEN. */
  function Backoff(k: nat): uint32
  {
    if k == 0 then RECONNECT_DELAY_INITIAL else NextDelay(Backoff(k - 1))
  }

  /** The delays run 2 s, 4 s, 8 s, 16 s, 32 s, then 60 s from the fifth attempt on. */
  lemma {:induction false} BackoffClosedForm(k: nat)
    ensures Backoff(k) == if k >= 5 then RECONNECT_DELAY_MAX as int else 2000 * Pow2(k)
  {
    if k > 0 {
      BackoffClosedForm(k - 1);
      if k <= 5 {
        assert Pow2(k) == 2 * Pow2(k - 1);
        if k <= 4 {
          assert Pow2(k - 1) <= 8 by {
            PowMonotone(k - 1, 3);
          }
        } else {
          assert Pow2(4) == 16;
        }
      }
    }
  }

  lemma {:induction false} PowMonotone(a: nat, b: nat)
    requires a <= b
    ensures Pow2(a) <= Pow2(b)
  {
    if a < b {
      PowMonotone(a, b - 1);
    }
  }

  /** INIT and OPEN reset the backoff, so the next attempt after them is immediate. */
  lemma EventsResetBackoff(s: State, h: uint32)
    ensures OnEvent(s, InitEvent).core.link.reconnectDelay == RECONNECT_DELAY_INITIAL
    ensures OnEvent(s, InitEvent).core.link.lastReconnectAttempt == 0
    ensures OnEvent(s, OpenEvent(h)).core.link.reconnectDelay == RECONNECT_DELAY_INITIAL
    ensures OnEvent(s, OpenEvent(h)).core.link.lastReconnectAttempt == 0
  {
    HandshakeKeepsLink(PublishConnection(s.core.(link := s.core.link.(connected := true, connecting := false, sppHandle := h,
        reconnectDelay := RECONNECT_DELAY_INITIAL, lastReconnectAttempt := 0))));
  }

  lemma HandshakeKeepsLink(c: Core)
    ensures Handshake(c).link == c.link && Handshake(c).published == c.published
  {
    SendAllEffect(c, HANDSHAKE_COMMANDS);
  }

  // ----- SPP events -----

  /**
   * OPEN marks the link connected on its handle, announces it to the
   * connection sensors, and sends the handshake over it.
   */
  lemma OpenEffect(s: State, h: uint32)
    requires h != 0
    ensures var r := OnEvent(s, OpenEvent(h));
      && r.rxBuffer == s.rxBuffer
      && r.core.link.connected && !r.core.link.connecting && r.core.link.sppHandle == h
      && r.core.published == s.core.published
        + FanOut(s.core.registry.binarySensors, [(Binary(BinConnected), BoolValue(true))])
      && r.core.transport == s.core.transport + Writes(h, HANDSHAKE_COMMANDS + ["AT_WGCHSQ"])
  {
    var l := s.core.link.(connected := true, connecting := false, sppHandle := h,
      reconnectDelay := RECONNECT_DELAY_INITIAL, lastReconnectAttempt := 0);
    var c1 := PublishConnection(s.core.(link := l));
    HandshakeWrites(c1);
  }

  /**
   * CLOSE marks the link down and announces it; a partial line in the
   * receive buffer is kept and will prefix the first line after reconnecting.
   */
  lemma CloseEffect(s: State)
    ensures var r := OnEvent(s, CloseEvent);
      && r.rxBuffer == s.rxBuffer
      && !r.core.link.connected && !r.core.link.connecting && r.core.link.sppHandle == 0
      && r.core.published == s.core.published
        + FanOut(s.core.registry.binarySensors, [(Binary(BinConnected), BoolValue(false))])
      && r.core.transport == s.core.transport
  {
  }

  // ----- Location upload -----

  /** An upload goes out only when due, and is then not due again until the interval has passed. */
  lemma LocationInterval(c: Core, now: uint32, fix: Option<string>, later: uint32)
    requires LocationDue(c, now, fix)
    requires Uint32Sub(later, now) < c.location.locationInterval
    ensures !LocationDue(LocationTick(c, now, fix), later, fix)
  {
  }

  /** An upload writes the fix after the fixed prefix when a handle is open. */
  lemma LocationSent(c: Core, now: uint32, fix: Option<string>)
    requires LocationDue(c, now, fix) && c.link.sppHandle != 0
    ensures LocationTick(c, now, fix).transport
      == c.transport + [Write(c.link.sppHandle, "AT+WGTLOC=000000," + fix.value + "\r\n")]
  {
  }

  // ----- The invariant -----

  /**
   * What holds of the component between any two calls: the delay stays in
   * 2..60 s, a link is never both connected and connecting, a closed link
   * has no handle, only a ready stack is ever connecting, the table's keys
   * are unique, every entity sits in its own category's list, and the
   * cached status is consistent.
   */
  predicate Inv(c: Core)
  {
    && RECONNECT_DELAY_INITIAL <= c.link.reconnectDelay <= RECONNECT_DELAY_MAX
    && !(c.link.connected && c.link.connecting)
    && (!c.link.connected ==> c.link.sppHandle == 0)
    && (c.link.connecting ==> c.link.sppReady && c.link.btInitialized)
    && UniqueKeys(c.channelTable)
    && WellTyped(c)
    && StatusInv(c.status)
  }

  /** Every entry point of the component, with the outside world's answers as parameters. */
  datatype Operation =
    | SetMacAddress(mac: string)
    | SetLocationInterval(ms: uint32)
    | DoSetup(stackOk: bool)
    | DoLoop(now: uint32, connectOk: bool, fix: Option<string>)
    | Event(e: SppEvent)
    | DoRegister(tag: Tag, entity: EntityId)
    | DoSetVolume(volume: int)
    | DoSetToggle(k: Toggle, enabled: bool)
    | DoSetLocationMode(enabled: bool)
    | DoSetTargetZone(zone: byte)
    | DoSetTargetZoneChannel(zone: byte, channel: byte)
    | DoRequestChannelTable

  function Apply(s: State, op: Operation): State
  {
    match op
    case Event(e) => OnEvent(s, e)
    case _ => State(s.rxBuffer, Step(s.core, op))
  }

  /** The entry points other than the serial-port events; none of them touches the receive buffer. */
  function Step(c: Core, op: Operation): Core
    requires !op.Event?
  {
    match op
    case DoLoop(now, ok, fix) => Loop(c, now, ok, fix)
    case DoRegister(tag, e) => Register(c, tag, e)
    case SetMacAddress(_) => Setting(c, op)
    case SetLocationInterval(_) => Setting(c, op)
    case DoSetup(_) => Setting(c, op)
    case DoSetVolume(_) => Setting(c, op)
    case DoSetToggle(_, _) => Setting(c, op)
    case DoSetLocationMode(_) => Setting(c, op)
    case DoSetTargetZone(_) => Setting(c, op)
    case DoSetTargetZoneChannel(_, _) => Setting(c, op)
    case DoRequestChannelTable => Setting(c, op)
  }

  /** The setters, setup() and the commands. */
  function Setting(c: Core, op: Operation): Core
    requires !op.Event? && !op.DoLoop? && !op.DoRegister?
  {
    match op
    case SetMacAddress(mac) => c.(link := c.link.(macAddress := mac))
    case SetLocationInterval(ms) => c.(location := c.location.(locationInterval := ms))
    case DoSetup(ok) => Setup(c, ok)
    case DoSetVolume(_) => Command(c, op)
    case DoSetToggle(_, _) => Command(c, op)
    case DoSetLocationMode(_) => Command(c, op)
    case DoSetTargetZone(_) => Command(c, op)
    case DoSetTargetZoneChannel(_, _) => Command(c, op)
    case DoRequestChannelTable => Command(c, op)
  }

  /** The calls that write to the radio, or ask it for something. */
  predicate IsCommand(op: Operation)
  {
    op.DoSetVolume? || op.DoSetToggle? || op.DoSetLocationMode? || op.DoSetTargetZone?
      || op.DoSetTargetZoneChannel? || op.DoRequestChannelTable?
  }

  function Command(c: Core, op: Operation): Core
    requires IsCommand(op)
  {
    match op
    case DoSetVolume(v) => SetVolume(c, v)
    case DoSetToggle(k, b) => SetToggle(c, k, b)
    case DoSetLocationMode(b) => SetLocationMode(c, b)
    case DoSetTargetZone(z) => SetTargetZone(c, z)
    case DoSetTargetZoneChannel(z, ch) => SetTargetZoneChannel(c, z, ch)
    case DoRequestChannelTable => RequestChannelTable(c)
  }

  /** Any sequence of calls, in order. */
  function Run(s: State, ops: seq<Operation>): State
  {
    if ops == [] then s else Apply(Run(s, ops[..|ops| - 1]), ops[|ops| - 1])
  }

  lemma InitialInv()
    ensures Inv(Initial())
  {
  }

  lemma LoopKeepsInv(c: Core, now: uint32, connectOk: bool, fix: Option<string>)
    requires Inv(c)
    ensures Inv(Loop(c, now, connectOk, fix))
  {
    var c1 := Reconnect(c, now, connectOk);
    assert Inv(c1);
  }

  lemma FeedKeepsInv(s: State, data: seq<byte>)
    requires Inv(s.core)
    ensures Inv(Feed(s, data).core)
    decreases |data|
  {
    if data != [] {
      FeedKeepsInv(s, data[..|data| - 1]);
      var t := Feed(s, data[..|data| - 1]);
      if t.rxBuffer != [] {
        var c := HandleLine(t.core, t.rxBuffer);
        assert SameSession(t.core, c);
        assert WellTyped(c);
      }
    }
  }

  lemma EventKeepsInv(s: State, e: SppEvent)
    requires Inv(s.core)
    ensures Inv(OnEvent(s, e).core)
  {
    match e
    case OpenEvent(h) =>
      var l := s.core.link.(connected := true, connecting := false, sppHandle := h,
        reconnectDelay := RECONNECT_DELAY_INITIAL, lastReconnectAttempt := 0);
      SendAllEffect(PublishConnection(s.core.(link := l)), HANDSHAKE_COMMANDS);
    case DataEvent(data) => FeedKeepsInv(s, data);
    case _ =>
  }

  lemma RegisterKeepsInv(c: Core, tag: Tag, e: EntityId)
    requires Inv(c)
    ensures Inv(Register(c, tag, e))
  {
    RegisterSubscribes(c, tag, e);
    var r := Register(c, tag, e);
    assert r.channelTable == c.channelTable by {
      match tag
      case Text(t) => RegisterTextKeeps(c, t, e);
      case _ =>
    }
    assert WellTyped(r) by {
      match tag
      case Numeric(_) => assert SubscribersOf(r, tag) == r.registry.numericSensors;
      case Binary(_) => assert SubscribersOf(r, tag) == r.registry.binarySensors;
      case Text(_) => assert SubscribersOf(r, tag) == r.registry.textSensors;
      case Number(_) => assert SubscribersOf(r, tag) == r.registry.numbers;
      case Switch(_) => assert SubscribersOf(r, tag) == r.registry.switches;
      case Select(_) => assert SubscribersOf(r, tag) == r.registry.selects;
    }
  }

  /** A change that leaves the link, the entities and the table alone keeps the invariant. */
  lemma KeepsInvAside(a: Core, b: Core)
    requires Inv(a) && StatusInv(b.status)
    requires b.link == a.link && b.registry == a.registry && b.channelTable == a.channelTable
    ensures Inv(b)
  {
  }

  /** The commands only touch what their Effect lemmas allow. */
  lemma CommandKeepsInv(c: Core, op: Operation)
    requires Inv(c) && IsCommand(op)
    ensures Inv(Command(c, op))
  {
    match op
    case DoSetVolume(v) =>
      SetVolumeEffect(c, v);
      KeepsInvAside(c, SetVolume(c, v));
    case DoSetToggle(k, b) =>
      SetToggleEffect(c, k, b);
      KeepsInvAside(c, SetToggle(c, k, b));
    case DoSetLocationMode(b) => KeepsInvAside(c, SetLocationMode(c, b));
    case DoSetTargetZone(z) => KeepsInvAside(c, SetTargetZone(c, z));
    case DoSetTargetZoneChannel(z, ch) => KeepsInvAside(c, SetTargetZoneChannel(c, z, ch));
    case DoRequestChannelTable => KeepsInvAside(c, RequestChannelTable(c));
  }

  /** The setters and setup() leave the invariant's parts alone, or keep them. */
  lemma SettingKeepsInv(c: Core, op: Operation)
    requires Inv(c) && !op.Event? && !op.DoLoop? && !op.DoRegister?
    ensures Inv(Setting(c, op))
  {
    match op
    case SetMacAddress(mac) =>
    case SetLocationInterval(ms) => KeepsInvAside(c, Setting(c, op));
    case DoSetup(ok) =>
    case DoSetVolume(_) => CommandKeepsInv(c, op);
    case DoSetToggle(_, _) => CommandKeepsInv(c, op);
    case DoSetLocationMode(_) => CommandKeepsInv(c, op);
    case DoSetTargetZone(_) => CommandKeepsInv(c, op);
    case DoSetTargetZoneChannel(_, _) => CommandKeepsInv(c, op);
    case DoRequestChannelTable => CommandKeepsInv(c, op);
  }

  /** The entry points other than the events keep the invariant. */
  lemma StepKeepsInv(c: Core, op: Operation)
    requires Inv(c) && !op.Event?
    ensures Inv(Step(c, op))
  {
    match op
    case DoLoop(now, ok, fix) => LoopKeepsInv(c, now, ok, fix);
    case DoRegister(tag, e) => RegisterKeepsInv(c, tag, e);
    case SetMacAddress(_) => SettingKeepsInv(c, op);
    case SetLocationInterval(_) => SettingKeepsInv(c, op);
    case DoSetup(_) => SettingKeepsInv(c, op);
    case DoSetVolume(_) => SettingKeepsInv(c, op);
    case DoSetToggle(_, _) => SettingKeepsInv(c, op);
    case DoSetLocationMode(_) => SettingKeepsInv(c, op);
    case DoSetTargetZone(_) => SettingKeepsInv(c, op);
    case DoSetTargetZoneChannel(_, _) => SettingKeepsInv(c, op);
    case DoRequestChannelTable => SettingKeepsInv(c, op);
  }

  /** Every entry point keeps the invariant. */
  lemma ApplyKeepsInv(s: State, op: Operation)
    requires Inv(s.core)
    ensures Inv(Apply(s, op).core)
  {
    match op
    case Event(e) => EventKeepsInv(s, e);
    case _ => StepKeepsInv(s.core, op);
  }

  /** The invariant holds after every sequence of calls on a fresh component. */
  lemma {:induction false} RunKeepsInv(ops: seq<Operation>)
    ensures Inv(Run(State([], Initial()), ops).core)
  {
    if ops == [] {
      InitialInv();
    } else {
      RunKeepsInv(ops[..|ops| - 1]);
      ApplyKeepsInv(Run(State([], Initial()), ops[..|ops| - 1]), ops[|ops| - 1]);
    }
  }
}
