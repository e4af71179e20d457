/**
 * The radio's channel/squelch table: entries keyed by (zone, channel), the
 * parse of one "+WGCHSQ:" line into an entry, the upsert, the label lookup,
 * and the zone and channel option lists the selects offer.
 */
module ChannelTable {
  import opened Base
  import opened CLib
  import opened ATParser

  /**
   * One table entry. The frequencies are kept as the field text atof reads
   * ("" when the line has fewer than four fields, which atof also reads as 0).
   */
  datatype ChannelInfo = ChannelInfo(zone: byte, channel: byte, rxText: string, txText: string, labelText: string)

  predicate HasKey(e: ChannelInfo, zone: byte, channel: byte)
  {
    e.zone == zone && e.channel == channel
  }

  /** No two entries share a (zone, channel) key. */
  predicate UniqueKeys(t: seq<ChannelInfo>)
  {
    forall i, j :: 0 <= i < j < |t| ==> !HasKey(t[j], t[i].zone, t[i].channel)
  }

  /** The position of the first entry with the key, scanning from position i. */
  function FindKeyFrom(t: seq<ChannelInfo>, zone: byte, channel: byte, i: nat): (r: Option<nat>)
    requires i <= |t|
    ensures r.Some? ==> i <= r.value < |t| && HasKey(t[r.value], zone, channel)
    ensures r.Some? ==> forall k :: i <= k < r.value ==> !HasKey(t[k], zone, channel)
    ensures r.None? ==> forall k :: i <= k < |t| ==> !HasKey(t[k], zone, channel)
    decreases |t| - i
  {
    if i == |t| then None
    else if HasKey(t[i], zone, channel) then Some(i)
    else FindKeyFrom(t, zone, channel, i + 1)
  }

  /** The position of the first entry with the key. */
  function FindKey(t: seq<ChannelInfo>, zone: byte, channel: byte): (r: Option<nat>)
    ensures r.Some? ==> r.value < |t| && HasKey(t[r.value], zone, channel)
    ensures r.Some? ==> forall k :: 0 <= k < r.value ==> !HasKey(t[k], zone, channel)
    ensures r.None? ==> forall k :: 0 <= k < |t| ==> !HasKey(t[k], zone, channel)
  {
    FindKeyFrom(t, zone, channel, 0)
  }

  /** handle_channel_table_line_'s update: overwrite the entry with the same key, else append. */
  function Upsert(t: seq<ChannelInfo>, info: ChannelInfo): seq<ChannelInfo>
  {
    match FindKey(t, info.zone, info.channel)
    case Some(i) => t[i := info]
    case None => t + [info]
  }

  /**
   * The upsert replaces exactly the entry with the new entry's key, or
   * appends when there is none; every other entry keeps its place.
   */
  lemma UpsertContents(t: seq<ChannelInfo>, info: ChannelInfo)
    ensures (exists k :: 0 <= k < |t| && HasKey(t[k], info.zone, info.channel))
      ==> |Upsert(t, info)| == |t|
    ensures (forall k :: 0 <= k < |t| ==> !HasKey(t[k], info.zone, info.channel))
      ==> Upsert(t, info) == t + [info]
    ensures forall k :: 0 <= k < |t| && !HasKey(t[k], info.zone, info.channel) ==> Upsert(t, info)[k] == t[k]
    ensures exists k :: 0 <= k < |Upsert(t, info)| && Upsert(t, info)[k] == info
  {
    match FindKey(t, info.zone, info.channel)
    case Some(i) =>
      assert Upsert(t, info)[i] == info;
    case None =>
      assert Upsert(t, info)[|t|] == info;
  }

  /** Upserting keeps the keys unique. */
  lemma UpsertKeepsUnique(t: seq<ChannelInfo>, info: ChannelInfo)
    requires UniqueKeys(t)
    ensures UniqueKeys(Upsert(t, info))
  {
  }

  /** The label of the first entry with the key, or "" when there is none (get_channel_label_). */
  function Label(t: seq<ChannelInfo>, zone: byte, channel: byte): string
  {
    match FindKey(t, zone, channel)
    case Some(i) => t[i].labelText
    case None => ""
  }

  /** After an upsert the key reads back the new label, and every other key its old one. */
  lemma LabelAfterUpsert(t: seq<ChannelInfo>, info: ChannelInfo, zone: byte, channel: byte)
    requires UniqueKeys(t)
    ensures Label(Upsert(t, info), zone, channel)
      == if zone == info.zone && channel == info.channel then info.labelText else Label(t, zone, channel)
  {
    var u := Upsert(t, info);
    UpsertKeepsUnique(t, info);
    UpsertContents(t, info);
    if zone == info.zone && channel == info.channel {
      var k :| 0 <= k < |u| && u[k] == info;
      var j := FindKey(u, zone, channel).value;
      assert j == k;
    } else {
      match FindKey(t, zone, channel)
      case Some(i) =>
        assert u[i] == t[i];
        assert FindKey(u, zone, channel) == Some(i);
      case None =>
        assert forall k :: 0 <= k < |u| ==> !HasKey(u[k], zone, channel);
    }
  }

  /** A blank in the label sense: space or tab only. */
  predicate IsBlank(c: char)
  {
    c == ' ' || c == '\t'
  }

  /** Length of the run of blanks that starts the text. */
  function BlankRun(s: string): (n: nat)
    ensures n <= |s|
    ensures forall k :: 0 <= k < n ==> IsBlank(s[k])
    ensures n == |s| || !IsBlank(s[n])
  {
    if s != [] && IsBlank(s[0]) then 1 + BlankRun(s[1..]) else 0
  }

  /** Length of the run of blanks that ends the text. */
  function TrailingBlankRun(s: string): (n: nat)
    ensures n <= |s|
    ensures forall k :: |s| - n <= k < |s| ==> IsBlank(s[k])
    ensures n == |s| || !IsBlank(s[|s| - 1 - n])
  {
    if s != [] && IsBlank(s[|s| - 1]) then 1 + TrailingBlankRun(s[..|s| - 1]) else 0
  }

  /** The text without one leading and then one trailing double quote, when present. */
  function Unquote(s: string): (r: string)
  {
    var a := if s != [] && s[0] == '"' then s[1..] else s;
    if a != [] && a[|a| - 1] == '"' then a[..|a| - 1] else a
  }

  /** The text without its leading and trailing blanks. */
  function StripBlanks(s: string): (r: string)
  {
    var a := s[BlankRun(s)..];
    a[..|a| - TrailingBlankRun(a)]
  }

  /** The label handle_channel_table_line_ stores: unquoted once, then stripped of blanks. */
  function CleanLabel(s: string): string
  {
    StripBlanks(Unquote(s))
  }

  /** The stored label neither starts nor ends with a blank. */
  lemma CleanLabelStripped(s: string)
    ensures CleanLabel(s) == [] || (!IsBlank(CleanLabel(s)[0]) && !IsBlank(CleanLabel(s)[|CleanLabel(s)| - 1]))
  {
    var a := Unquote(s);
    var b := a[BlankRun(a)..];
    var n := TrailingBlankRun(b);
    if n < |b| {
      assert !IsBlank(b[|b| - 1 - n]);
      assert BlankRun(a) == |a| || !IsBlank(a[BlankRun(a)]);
      assert b[0] == a[BlankRun(a)];
    }
  }

  /** A label quoted in the line is stored without its quotes. */
  lemma CleanLabelQuoted(body: string)
    requires body == [] || (!IsBlank(body[0]) && !IsBlank(body[|body| - 1]))
    ensures CleanLabel("\"" + body + "\"") == body
  {
    var s := "\"" + body + "\"";
    assert s[1..] == body + "\"";
    assert (body + "\"")[..|body|] == body;
    assert Unquote(s) == body;
    assert BlankRun(body) == 0;
    assert TrailingBlankRun(body) == 0;
  }

  /** A label with no quotes or blanks at its ends is stored as it is. */
  lemma CleanLabelPlain(s: string)
    requires s == [] || (s[0] != '"' && s[|s| - 1] != '"' && !IsBlank(s[0]) && !IsBlank(s[|s| - 1]))
    ensures CleanLabel(s) == s
  {
    assert Unquote(s) == s;
    assert BlankRun(s) == 0;
    assert TrailingBlankRun(s) == 0;
  }

  /**
   * The entry a "+WGCHSQ:" line describes, or None when its payload is empty
   * or splits into fewer than two fields. The label is taken from the last
   * field, so a two-field line is labelled with its channel text.
   */
  function ParseTableLine(line: string): (r: Option<ChannelInfo>)
  {
    var payload := Payload(line, "+WGCHSQ:");
    if payload == [] then None
    else
      var parts := Fields(payload);
      if |parts| < 2 then None
      else
        Some(ChannelInfo(
          ToByte(Atoi(parts[0])),
          ToByte(Atoi(parts[1])),
          if |parts| >= 4 then parts[2] else "",
          if |parts| >= 4 then parts[3] else "",
          CleanLabel(parts[|parts| - 1])))
  }

  /** A line is accepted exactly when its payload is non-empty and has at least two fields. */
  lemma ParseTableLineAccepts(line: string)
    ensures ParseTableLine(line).Some?
      <==> Payload(line, "+WGCHSQ:") != [] && |Fields(Payload(line, "+WGCHSQ:"))| >= 2
  {
  }

  /** A two-field line: no frequencies, and the label is the channel field. */
  lemma ParseTwoFields(line: string)
    requires ParseTableLine(line).Some?
    requires |Fields(Payload(line, "+WGCHSQ:"))| == 2
    ensures ParseTableLine(line).value.rxText == "" && ParseTableLine(line).value.txText == ""
    ensures ParseTableLine(line).value.labelText == CleanLabel(Fields(Payload(line, "+WGCHSQ:"))[1])
  {
  }

  // ----- Sorting by key (the comparator get_channel_options passes to std::sort) -----

  /** "a is not after b": zones ascending, then channels ascending. */
  predicate KeyLe(a: ChannelInfo, b: ChannelInfo)
  {
    a.zone < b.zone || (a.zone == b.zone && a.channel <= b.channel)
  }

  predicate SortedByKey(s: seq<ChannelInfo>)
  {
    forall i, j :: 0 <= i < j < |s| ==> KeyLe(s[i], s[j])
  }

  function InsertByKey(x: ChannelInfo, s: seq<ChannelInfo>): (r: seq<ChannelInfo>)
    ensures multiset(r) == multiset(s) + multiset{x}
    ensures |r| == |s| + 1
  {
    if s == [] || KeyLe(x, s[0]) then [x] + s
    else
      assert s == [s[0]] + s[1..];
      [s[0]] + InsertByKey(x, s[1..])
  }

  lemma {:induction false} InsertByKeySorted(x: ChannelInfo, s: seq<ChannelInfo>)
    requires SortedByKey(s)
    ensures SortedByKey(InsertByKey(x, s))
  {
    if s != [] && !KeyLe(x, s[0]) {
      InsertByKeySorted(x, s[1..]);
      var r := InsertByKey(x, s[1..]);
      assert multiset(r) == multiset(s[1..]) + multiset{x};
      forall k | 0 <= k < |r|
        ensures KeyLe(s[0], r[k])
      {
        assert r[k] in multiset(r);
        if r[k] == x {
        } else {
          assert r[k] in multiset(s[1..]);
          var m :| 0 <= m < |s[1..]| && s[1..][m] == r[k];
          assert s[1 + m] == r[k];
        }
      }
    }
  }

  /** An insertion sort standing in for std::sort with the key comparator. */
  function SortByKey(t: seq<ChannelInfo>): (r: seq<ChannelInfo>)
    ensures multiset(r) == multiset(t)
    ensures |r| == |t|
  {
    if t == [] then []
    else
      assert t == [t[0]] + t[1..];
      InsertByKey(t[0], SortByKey(t[1..]))
  }

  /** The sort orders by key. */
  lemma {:induction false} SortByKeySorted(t: seq<ChannelInfo>)
    ensures SortedByKey(SortByKey(t))
  {
    if t != [] {
      SortByKeySorted(t[1..]);
      InsertByKeySorted(t[0], SortByKey(t[1..]));
    }
  }

  /** The sort is a permutation of the table. */
  lemma SortByKeyPermutes(t: seq<ChannelInfo>)
    ensures multiset(SortByKey(t)) == multiset(t)
  {
  }

  /** With unique keys the sorted entries are strictly ascending by key. */
  lemma SortByKeyStrict(t: seq<ChannelInfo>)
    requires UniqueKeys(t)
    ensures forall i, j :: 0 <= i < j < |SortByKey(t)| ==>
      !HasKey(SortByKey(t)[j], SortByKey(t)[i].zone, SortByKey(t)[i].channel)
  {
    var s := SortByKey(t);
    forall i, j | 0 <= i < j < |s|
      ensures !HasKey(s[j], s[i].zone, s[i].channel)
    {
      assert s[i] in multiset(t) && s[j] in multiset(t);
      var a :| 0 <= a < |t| && t[a] == s[i];
      var b :| 0 <= b < |t| && t[b] == s[j];
      if HasKey(s[j], s[i].zone, s[i].channel) {
        if a == b {
          MultisetTwoPositions(s, i, j);
          UniqueCountOne(t, s[i]);
        }
      }
    }
  }

  /** Two positions holding the same value count twice in the multiset. */
  lemma MultisetTwoPositions(s: seq<ChannelInfo>, i: nat, j: nat)
    requires i < j < |s|
    ensures multiset(s)[s[i]] >= (if s[i] == s[j] then 2 else 1)
  {
    assert s == s[..j] + [s[j]] + s[j + 1..];
    assert s[i] in multiset(s[..j]);
  }

  /** With unique keys an entry occurs at most once. */
  lemma {:induction false} UniqueCountOne(t: seq<ChannelInfo>, x: ChannelInfo)
    requires UniqueKeys(t)
    ensures multiset(t)[x] <= 1
  {
    if t != [] {
      var u := t[1..];
      assert t == [t[0]] + u;
      assert UniqueKeys(u) by {
        forall i, j | 0 <= i < j < |u|
          ensures !HasKey(u[j], u[i].zone, u[i].channel)
        {
          assert u[i] == t[i + 1] && u[j] == t[j + 1];
        }
      }
      UniqueCountOne(u, x);
      if x == t[0] {
        assert x !in multiset(u);
      }
    }
  }

  // ----- Zone options (get_zone_options) -----

  /** The distinct zones of the table in order of first occurrence. */
  function ZoneList(t: seq<ChannelInfo>): (zs: seq<byte>)
  {
    if t == [] then []
    else
      var zs := ZoneList(t[..|t| - 1]);
      if t[|t| - 1].zone in zs then zs else zs + [t[|t| - 1].zone]
  }

  predicate Distinct(zs: seq<byte>)
  {
    forall i, j :: 0 <= i < j < |zs| ==> zs[i] != zs[j]
  }

  /** The zone list holds each zone of the table exactly once, and nothing else. */
  lemma {:induction false} ZoneListContents(t: seq<ChannelInfo>)
    ensures Distinct(ZoneList(t))
    ensures forall z :: z in ZoneList(t) <==> exists k :: 0 <= k < |t| && t[k].zone == z
    ensures ZoneList(t) == [] <==> t == []
  {
    if t != [] {
      var u := t[..|t| - 1];
      ZoneListContents(u);
      forall z
        ensures z in ZoneList(t) <==> exists k :: 0 <= k < |t| && t[k].zone == z
      {
        if z in ZoneList(u) {
          var k :| 0 <= k < |u| && u[k].zone == z;
          assert t[k].zone == z;
        }
        if exists k :: 0 <= k < |t| && t[k].zone == z {
          var k :| 0 <= k < |t| && t[k].zone == z;
          if k < |u| {
            assert u[k].zone == z;
          }
        }
      }
    }
  }

  /** The zones offered when the table is empty. */
  const DEFAULT_ZONES: seq<byte> := [1, 2, 3, 4, 5, 6, 7, 8]

  function ZoneCandidates(t: seq<ChannelInfo>): seq<byte>
  {
    var zs := ZoneList(t);
    if zs == [] then DEFAULT_ZONES else zs
  }

  predicate StrictlyAscending(zs: seq<byte>)
  {
    forall i, j :: 0 <= i < j < |zs| ==> zs[i] < zs[j]
  }

  predicate Ascending(zs: seq<byte>)
  {
    forall i, j :: 0 <= i < j < |zs| ==> zs[i] <= zs[j]
  }

  function InsertByte(x: byte, s: seq<byte>): (r: seq<byte>)
    ensures multiset(r) == multiset(s) + multiset{x}
    ensures |r| == |s| + 1
  {
    if s == [] || x <= s[0] then [x] + s
    else
      assert s == [s[0]] + s[1..];
      [s[0]] + InsertByte(x, s[1..])
  }

  lemma {:induction false} InsertByteAscending(x: byte, s: seq<byte>)
    requires Ascending(s)
    ensures Ascending(InsertByte(x, s))
  {
    if s != [] && !(x <= s[0]) {
      var u := s[1..];
      assert Ascending(u) by {
        forall i, j | 0 <= i < j < |u|
          ensures u[i] <= u[j]
        {
          assert u[i] == s[i + 1] && u[j] == s[j + 1];
        }
      }
      InsertByteAscending(x, u);
      var r := InsertByte(x, u);
      InsertByteBound(s[0], x, u);
      assert InsertByte(x, s) == [s[0]] + r;
    }
  }

  /** A lower bound of x and of every element of u is one of every element of the insertion. */
  lemma InsertByteBound(lo: byte, x: byte, u: seq<byte>)
    requires lo <= x
    requires forall k :: 0 <= k < |u| ==> lo <= u[k]
    ensures forall k :: 0 <= k < |InsertByte(x, u)| ==> lo <= InsertByte(x, u)[k]
  {
    var r := InsertByte(x, u);
    forall k | 0 <= k < |r|
      ensures lo <= r[k]
    {
      assert r[k] in multiset(r);
      if r[k] != x {
        assert r[k] in multiset(u);
        var m :| 0 <= m < |u| && u[m] == r[k];
      }
    }
  }

  /** An insertion sort standing in for std::sort on the zone bytes. */
  function SortBytes(s: seq<byte>): (r: seq<byte>)
    ensures multiset(r) == multiset(s)
    ensures |r| == |s|
  {
    if s == [] then []
    else
      assert s == [s[0]] + s[1..];
      InsertByte(s[0], SortBytes(s[1..]))
  }

  lemma {:induction false} SortBytesAscending(s: seq<byte>)
    ensures Ascending(SortBytes(s))
  {
    if s != [] {
      SortBytesAscending(s[1..]);
      InsertByteAscending(s[0], SortBytes(s[1..]));
    }
  }

  /** Sorting distinct bytes gives a strictly ascending sequence. */
  lemma SortBytesStrict(s: seq<byte>)
    requires Distinct(s)
    ensures StrictlyAscending(SortBytes(s))
  {
    var r := SortBytes(s);
    SortBytesAscending(s);
    forall i, j | 0 <= i < j < |r|
      ensures r[i] < r[j]
    {
      if r[i] == r[j] {
        ByteTwice(r, i, j);
        ByteOnce(s, r[i]);
      }
    }
  }

  lemma ByteTwice(s: seq<byte>, i: nat, j: nat)
    requires i < j < |s| && s[i] == s[j]
    ensures multiset(s)[s[i]] >= 2
  {
    assert s == s[..j] + [s[j]] + s[j + 1..];
    assert s[i] in multiset(s[..j]);
  }

  lemma {:induction false} ByteOnce(s: seq<byte>, x: byte)
    requires Distinct(s)
    ensures multiset(s)[x] <= 1
  {
    if s != [] {
      var u := s[1..];
      assert s == [s[0]] + u;
      assert Distinct(u) by {
        forall i, j | 0 <= i < j < |u|
          ensures u[i] != u[j]
        {
          assert u[i] == s[i + 1] && u[j] == s[j + 1];
        }
      }
      ByteOnce(u, x);
      if x == s[0] {
        assert x !in multiset(u);
      }
    }
  }

  /** The zone numbers get_zone_options offers, in the order it offers them. */
  function ZoneValues(t: seq<ChannelInfo>): seq<byte>
  {
    SortBytes(ZoneCandidates(t))
  }

  /** The zone values are strictly ascending: each zone is offered once. */
  lemma ZoneValuesAscending(t: seq<ChannelInfo>)
    ensures StrictlyAscending(ZoneValues(t))
  {
    ZoneListContents(t);
    if ZoneList(t) == [] {
      assert Distinct(DEFAULT_ZONES);
    }
    SortBytesStrict(ZoneCandidates(t));
  }

  /**
   * A non-empty table offers exactly the zones that occur in it; an empty
   * table offers zones 1 to 8.
   */
  lemma ZoneValuesMembers(t: seq<ChannelInfo>)
    ensures t != [] ==> forall z :: z in ZoneValues(t) <==> exists k :: 0 <= k < |t| && t[k].zone == z
    ensures t == [] ==> forall z :: z in ZoneValues(t) <==> 1 <= z <= 8
  {
    ZoneListContents(t);
    SortBytesMembers(ZoneCandidates(t));
    if t == [] {
      DefaultZonesMembers();
    }
  }

  lemma SortBytesMembers(s: seq<byte>)
    ensures forall z :: z in SortBytes(s) <==> z in s
  {
    forall z
      ensures z in SortBytes(s) <==> z in s
    {
      assert z in SortBytes(s) <==> z in multiset(SortBytes(s));
      assert z in s <==> z in multiset(s);
    }
  }

  lemma DefaultZonesMembers()
    ensures forall z :: z in DEFAULT_ZONES <==> 1 <= z <= 8
  {
    forall z
      ensures z in DEFAULT_ZONES <==> 1 <= z <= 8
    {
      if 1 <= z <= 8 {
        assert DEFAULT_ZONES[z - 1] == z;
      }
    }
  }

  /** printf's "Zone %u". */
  function ZoneText(z: byte): string
  {
    "Zone " + DecimalText(z)
  }

  /** The option strings for a list of zones. */
  function ZoneTexts(zs: seq<byte>): (r: seq<string>)
    ensures |r| == |zs|
    ensures forall k :: 0 <= k < |zs| ==> r[k] == ZoneText(zs[k])
  {
    if zs == [] then [] else ZoneTexts(zs[..|zs| - 1]) + [ZoneText(zs[|zs| - 1])]
  }

  /** get_zone_options. */
  function ZoneOptions(t: seq<ChannelInfo>): seq<string>
  {
    ZoneTexts(ZoneValues(t))
  }

  // ----- Channel options (get_channel_options) -----

  /** printf's "Z%u / Ch %u". */
  function ChannelText(zone: nat, channel: nat): string
  {
    "Z" + DecimalText(zone) + " / Ch " + DecimalText(channel)
  }

  /** The option for one entry: its key, then ": " and the label when it has one. */
  function OptionText(e: ChannelInfo): string
  {
    ChannelText(e.zone, e.channel) + (if e.labelText != [] then ": " + e.labelText else "")
  }

  function OptionTexts(s: seq<ChannelInfo>): (r: seq<string>)
    ensures |r| == |s|
    ensures forall k :: 0 <= k < |s| ==> r[k] == OptionText(s[k])
  {
    if s == [] then [] else OptionTexts(s[..|s| - 1]) + [OptionText(s[|s| - 1])]
  }

  /** Zones 1..8 times channels 1..80, zone-major. */
  const DEFAULT_CHANNEL_COUNT := 640

  /** The zone and channel of the k-th default option. */
  function DefaultZone(k: nat): nat { k / 80 + 1 }
  function DefaultChannel(k: nat): nat { k % 80 + 1 }

  function DefaultChannelOptions(): (r: seq<string>)
    ensures |r| == DEFAULT_CHANNEL_COUNT
    ensures forall k :: 0 <= k < DEFAULT_CHANNEL_COUNT ==> r[k] == ChannelText(DefaultZone(k), DefaultChannel(k))
  {
    seq(DEFAULT_CHANNEL_COUNT, k requires 0 <= k => ChannelText(DefaultZone(k), DefaultChannel(k)))
  }

  /** get_channel_options. */
  function ChannelOptions(t: seq<ChannelInfo>): seq<string>
  {
    if t == [] then DefaultChannelOptions() else OptionTexts(SortByKey(t))
  }
}
