# XRS radio component: a verified model

This project models the session engine of the ESPHome `xrs_radio` component, in Dafny. The component talks to a GME XRS handheld radio over a Bluetooth Classic serial-port (SPP) link, using the radio's AT command set. The model covers:

- **Bring-up and reconnection.** Bluetooth bring-up, parsing the configured MAC address, and the connect attempts made from `loop()`. The connect attempts use exponential backoff, capped at 60 s.
- **Link events.** The SPP INIT, OPEN, CLOSE and DATA events. OPEN triggers the handshake (`ATE1`, `ATV1`, `AT+GMI?`, `AT+GMM?`, `AT+GMR?`, `AT+GSN?`, `AT+GOI?`, then `AT_WGCHSQ`). DATA feeds the line framer, which assembles CR LF terminated lines in the receive buffer.
- **Replies and notifications.** `handle_line_` dispatches each line: identity replies, volume, zone/channel, PTT, power and the five radio modes, channel-table lines, and anything else that starts with `+`.
- **The AT parser.** `extract_payload` and `split_args`, with the quoted-comma rule.
- **The channel table.** Upsert by (zone, channel), the channel label, and the option lists offered to the selects.
- **Controls.** Volume, location mode, scan, duplex, quiet mode, quiet memory, silent memory, and the target zone and zone/channel requests.
- **Registration.** Registering sensors, binary sensors, text sensors, numbers, switches and selects, and the value each one is shown on registration.
- **The zone and channel selects.** `setup`, `refresh_options` and `control`.

Each C++ component object becomes a Dafny `class`: `Radio.XRSRadioComponent` and `Select.XRSRadioSelect`. Their methods update fields under `modifies` frames, and each method is proved against a pure specification function on the `RadioState.Core` / `RadioState.State` records. The lemmas about those functions carry the properties:

- the framer round trip;
- the payload and field-splitting laws;
- the channel-table upsert and its key uniqueness;
- the sorted, permuted option lists;
- the backoff closed form;
- the effect of each link event;
- the select round trips;
- an invariant that every reachable session state keeps.

Calls into the Bluetooth stack and the entity objects are modelled two ways:

- **Outbound calls** are kept as logs. `transport` holds the `esp_spp_connect` / `esp_spp_write` calls. `published` holds every `publish_state` on a registered entity, where an entity is an identifier with a type tag.
- **Results the model cannot compute** are parameters. The clock (`now`), the result of `esp_spp_connect` (`connectOk`), the stack bring-up (`stackOk`) and the location fix (`fix`) are passed in.

Modules, in dependency order:

- `Base`: Option, `byte`, `uint32`, wrap-around.
- `CLib`: `isspace`, decimal/hex digits, `atoi`, `printf("%u")`, and a `sscanf` model. Directives are literal, white space, `%d`, `%hhu` and `%x`.
- `ATParser`
- `Types`: the entity enums, publications and transport calls.
- `ChannelTable`
- `RadioState`: the state records, the initial values, fan-out to registered entities, `send_command_`, and the channel label.
- `Commands`: controls, handshake and registration.
- `Notifications`: `handle_line_`.
- `Framer`
- `Session`: bring-up, connection, `loop`, the SPP events, and the reachable-state invariant.
- `Radio`: the component class.
- `Select`: the select entity.

## Model

| member | source | states |
|---|---|---|
| ATParser.FindFirst | components/xrs_radio/at_parser.cpp:8-10 | the prefix search finds a position exactly when the prefix occurs, finds the first occurrence, and the prefix is there |
| ATParser.ExtractPayload | components/xrs_radio/at_parser.cpp:7-22 | the loop-based method returns exactly `Payload(line, prefix)` |
| ATParser.PayloadAbsent | components/xrs_radio/at_parser.cpp:9-10 | a line without the prefix yields the empty payload |
| ATParser.PayloadAtStart | components/xrs_radio/at_parser.cpp:7-21 | a line that begins with the prefix yields the trimmed rest of the line |
| ATParser.PayloadAfterFirst | components/xrs_radio/at_parser.cpp:8-21 | the text after the first occurrence is used even when the prefix occurs again later |
| ATParser.PayloadTrimmed | components/xrs_radio/at_parser.cpp:14-21 | a payload never starts or ends with white space |
| ATParser.TrimWhitespace | components/xrs_radio/at_parser.cpp:15-21 | the two trimming loops compute `Trim`, whose result starts and ends with a non-space |
| ATParser.TrimIdempotent | components/xrs_radio/at_parser.cpp:15-21 | trimming twice is trimming once |
| ATParser.TrimBetween | components/xrs_radio/at_parser.cpp:15-21 | trimming keeps exactly the slice between the leading and trailing white-space runs |
| ATParser.SplitArgs | components/xrs_radio/at_parser.cpp:24-58 | the loop over the payload returns exactly `Fields(payload)` |
| ATParser.FieldsWithoutSeparator | components/xrs_radio/at_parser.cpp:42-55 | a payload without an unquoted comma is one trimmed field, or no field when empty |
| ATParser.FieldsAtFirstSeparator | components/xrs_radio/at_parser.cpp:33-41 | the first unquoted comma splits off the trimmed text before it as the first field |
| ATParser.SplitQuoteState | components/xrs_radio/at_parser.cpp:30-32 | after any text the splitter is inside quotes exactly when it has seen an odd number of quotes |
| ATParser.FieldsTrimmed | components/xrs_radio/at_parser.cpp:34-40 | every field is trimmed |
| ATParser.FieldsKeepQuotes | components/xrs_radio/at_parser.cpp:30-32 | no quote character is lost or added: the fields hold as many quotes as the payload |
| ATParser.UnclosedQuoteAbsorbsRest | components/xrs_radio/at_parser.cpp:29-55 | an unmatched quote swallows every later comma, so the rest of the payload is one field |
| ATParser.FieldsTrailingComma | components/xrs_radio/at_parser.cpp:47-55 | a trailing comma adds no empty field (`"a,"` is `["a"]`) |
| ATParser.FieldsTrailingBlank | components/xrs_radio/at_parser.cpp:47-55 | a trailing comma and a blank give an empty last field (`"a, "` is `["a", ""]`) |
| ATParser.FieldsQuotedComma | components/xrs_radio/at_parser.cpp:30-33 | a comma inside quotes does not split (`"\"a,b\""` is one field, quotes kept) |
| ChannelTable.FindKey | components/xrs_radio/xrs_radio.cpp:825-831 | the lookup returns the first entry with the key, or none when no entry has it |
| ChannelTable.UpsertContents | components/xrs_radio/xrs_radio.cpp:824-833 | an existing key keeps the length and every other entry; a new key is appended; the new entry is in the table |
| ChannelTable.UpsertKeepsUnique | components/xrs_radio/xrs_radio.cpp:824-833 | upserting into a table with unique keys keeps the keys unique |
| ChannelTable.LabelAfterUpsert | components/xrs_radio/xrs_radio.cpp:764-770 | after an upsert the upserted key reads the new label and every other key reads its old label |
| ChannelTable.CleanLabelStripped | components/xrs_radio/xrs_radio.cpp:804-815 | a cleaned label starts and ends with neither space nor tab |
| ChannelTable.CleanLabelQuoted | components/xrs_radio/xrs_radio.cpp:806-810 | one pair of enclosing quotes is removed from a label |
| ChannelTable.CleanLabelPlain | components/xrs_radio/xrs_radio.cpp:804-815 | a label with no enclosing quotes and no blanks at its ends is kept as it is |
| ChannelTable.ParseTableLineAccepts | components/xrs_radio/xrs_radio.cpp:786-792 | a table line is accepted exactly when its payload is non-empty and splits into at least two fields |
| ChannelTable.ParseTwoFields | components/xrs_radio/xrs_radio.cpp:797-806 | a two-field line has no frequencies and takes its label from the channel field |
| ChannelTable.SortByKeySorted | components/xrs_radio/xrs_radio.cpp:872-877 | the sort orders entries by zone, then channel |
| ChannelTable.SortByKeyPermutes | components/xrs_radio/xrs_radio.cpp:872-877 | the sort is a permutation of the table |
| ChannelTable.SortByKeyStrict | components/xrs_radio/xrs_radio.cpp:872-877 | with unique keys, no later sorted entry repeats an earlier key |
| ChannelTable.ZoneListContents | components/xrs_radio/xrs_radio.cpp:846-850 | the collected zones are distinct, are exactly the table's zones, and are empty only for an empty table |
| ChannelTable.SortBytesAscending | components/xrs_radio/xrs_radio.cpp:855 | the zone sort is ascending |
| ChannelTable.SortBytesStrict | components/xrs_radio/xrs_radio.cpp:855 | distinct zones sort strictly ascending |
| ChannelTable.ZoneValuesAscending | components/xrs_radio/xrs_radio.cpp:844-858 | the zone option values are strictly ascending |
| ChannelTable.ZoneValuesMembers | components/xrs_radio/xrs_radio.cpp:846-855 | the zone options are the table's zones, or zones 1..8 when the table is empty |
| ChannelTable.DefaultChannelOptions | components/xrs_radio/xrs_radio.cpp:863-869 | an empty table offers 640 options, zone-major, `Z<z> / Ch <c>` for zones 1..8 and channels 1..80 |
| ChannelTable.OptionTexts | components/xrs_radio/xrs_radio.cpp:879-886 | one option per entry, with `: <label>` only when the label is non-empty |
| RadioState.Initial | components/xrs_radio/xrs_radio.h:259-312 | every field takes its declared initial value: an empty address and identity, the link down with handle 0 and delay 2000, position, volume, PTT timer and power state 0, every PTT, power and mode flag off, location off with a 60 s interval, no registered entity, an empty table and empty logs |
| RadioState.FanOutTargets | components/xrs_radio/xrs_radio.cpp:193-200 | a publication goes out exactly to the registered entities whose type has a value in this update |
| RadioState.FanOutNone | components/xrs_radio/xrs_radio.cpp:193-200 | with no entity of the updated types registered, nothing is published |
| RadioState.SendCommand | components/xrs_radio/xrs_radio.cpp:462-476 | while connected with a non-zero handle the command goes out with CR LF appended; otherwise nothing is written |
| RadioState.SendCommandWritten | components/xrs_radio/xrs_radio.cpp:462-476 | the text written to the link grows by the command and CR LF, or not at all |
| RadioState.PowerText | components/xrs_radio/xrs_radio.cpp:670-690 | the power text is non-empty exactly for codes 0..5 |
| RadioState.PttText | components/xrs_radio/xrs_radio.cpp:643-651 | "Idle" exactly when PTT is not active, "Transmitting voice+data" exactly when active with data |
| RadioState.CurrentZoneByte | components/xrs_radio/xrs_radio.h:152 | `get_current_zone` narrows the cached zone to a byte: the result is congruent to it modulo 256, and equal to it when it is in 0..255 |
| RadioState.CurrentChannelByte | components/xrs_radio/xrs_radio.h:153 | `get_current_channel` narrows the cached channel to a byte: the result is congruent to it modulo 256, and equal to it when it is in 0..255 |
| RadioState.ChannelLabelText | components/xrs_radio/xrs_radio.cpp:772-778 | the published label is never empty, and it is the table's label when there is one |
| RadioState.FallbackLabelIsOption | components/xrs_radio/xrs_radio.cpp:775-777 | without a table label the published label is the channel option text `Z<z> / Ch <c>` |
| RadioState.PublishChannelLabel | components/xrs_radio/xrs_radio.cpp:772-783 | the channel-label text sensors, in registration order, are each shown the current label text, and nothing else changes |
| Commands.WithToggleKeeps | components/xrs_radio/xrs_radio.cpp:212-290 | setting one mode flag leaves the other four as they were |
| Commands.SetToggleEffect | components/xrs_radio/xrs_radio.cpp:212-290 | a mode toggle updates its flag and publishes it to its binary sensors and switches even when disconnected; it writes `<command><0 or 1>` only while connected |
| Commands.ToggleShownAlike | components/xrs_radio/xrs_radio.cpp:49-80 | a mode's binary sensor and its switch are shown the same flag on registration |
| Commands.ClampVolume | components/xrs_radio/xrs_radio.cpp:182-185 | the volume is clamped to 0..31 and a value in range is kept |
| Commands.SetVolumeEffect | components/xrs_radio/xrs_radio.cpp:180-201 | set_volume stores and publishes the clamped volume even when disconnected, and writes `AT+WGAV=<v>` only while connected |
| Commands.SetLocationModeEffect | components/xrs_radio/xrs_radio.cpp:203-210 | set_location_mode stores the flag, publishes it to the location-mode switches and writes nothing to the radio, connected or not |
| Commands.SetTargetZoneEffect | components/xrs_radio/xrs_radio.cpp:292-305 | a zone in 1..8 while connected writes `AT+WGZS=<z>`; anything else changes nothing |
| Commands.SetTargetZoneChannelEffect | components/xrs_radio/xrs_radio.cpp:307-320 | zone 1..8 and channel 1..255 while connected write `AT+WGCHS=<z>,<c>`; anything else changes nothing |
| Commands.RequestChannelTableEffect | components/xrs_radio/xrs_radio.cpp:755-762 | the table request writes `AT_WGCHSQ` with CR LF while connected on a non-zero handle, and otherwise changes nothing |
| Commands.SendAllEffect | components/xrs_radio/xrs_radio.cpp:462-476 | a run of commands writes each one with CR LF, in order, and touches nothing but the transport |
| Commands.HandshakeWrites | components/xrs_radio/xrs_radio.cpp:478-487 | the handshake writes the seven identity commands, `AT+GOI?` included, then `AT_WGCHSQ` |
| Commands.RegisterSubscribes | components/xrs_radio/xrs_radio.cpp:31-178 | registration appends the entity to its category's list only |
| Commands.RegisterTextKeeps | components/xrs_radio/xrs_radio.cpp:82-144 | registering a text sensor only appends it to the text-sensor list |
| Commands.RegisterPublishes | components/xrs_radio/xrs_radio.cpp:31-178 | a newly registered entity is shown its current value once, or nothing for the last-message sensor and the selects |
| Commands.RegisterChannelLabel | components/xrs_radio/xrs_radio.cpp:82-144 | registering a channel-label sensor republishes the label to every channel-label sensor, the new one included |
| Notifications.ClassifySound | components/xrs_radio/xrs_radio.cpp:889-1052 | a line is dispatched by the prefix it starts with; it is ignored exactly when it is empty, or is neither `+...` nor `OK`/`ERROR` |
| Notifications.ClassifyUnsolicited | components/xrs_radio/xrs_radio.cpp:1046-1051 | a line reaches the last-message sensor exactly when it starts with `+` and with no handled prefix |
| Notifications.ClassifyByPrefix | components/xrs_radio/xrs_radio.cpp:899-1043 | a line that starts with a handled prefix takes that branch |
| Notifications.HandlePtt | components/xrs_radio/xrs_radio.cpp:628-656 | PTT is active for states 1 and 2, data for state 2; the timer is the reported one for data with a positive timer and 0 otherwise; no other status field or the identity changes |
| Notifications.HandlePttPublishes | components/xrs_radio/xrs_radio.cpp:633-655 | the two PTT flags go to the binary sensors, then the timer to the timer sensors, then the PTT text to the PTT-state sensors |
| Notifications.HandlePowerPublishes | components/xrs_radio/xrs_radio.cpp:658-693 | low power is published for every code, and the power text only for codes 0..5 |
| Notifications.HandlePower | components/xrs_radio/xrs_radio.cpp:658-660 | the power state is stored, and low power means code 5 |
| Notifications.HandleMode | components/xrs_radio/xrs_radio.cpp:695-753 | a mode notification sets its flag exactly when the value is non-zero and leaves the other four flags and the identity as they were |
| Notifications.HandleModePublishes | components/xrs_radio/xrs_radio.cpp:695-753 | the new flag goes to the mode's binary sensors, then to its switches |
| Notifications.HandleZoneChannel | components/xrs_radio/xrs_radio.cpp:953-967 | a zone/channel report stores both values and changes no other status field or the identity |
| Notifications.HandleZoneChannelPublishes | components/xrs_radio/xrs_radio.cpp:958-966 | the zone and channel go to the numeric sensors, then the label of the new position to the label sensors |
| Notifications.HandleZone | components/xrs_radio/xrs_radio.cpp:970-980 | a zone report stores the zone and changes no other status field or the identity |
| Notifications.HandleZonePublishes | components/xrs_radio/xrs_radio.cpp:973-979 | the zone goes to the zone sensors, then the label of the new position to the label sensors |
| Notifications.HandleChannelTableLine | components/xrs_radio/xrs_radio.cpp:785-842 | a table line changes only the table and the publication log: link, registry, location, transport, status and identity are kept, and the keys stay unique |
| Notifications.HandleIdentity | components/xrs_radio/xrs_radio.cpp:899-933 | an identity reply stores its text in the field of its sensor type only, and shows it to the sensors of that type |
| Notifications.ReportedVolumeReads | components/xrs_radio/xrs_radio.cpp:935-941 | a report printed as `+WGAV: <v>` reads back as v clamped to 0..31, so as v when it is in range |
| Notifications.ReportedVolume | components/xrs_radio/xrs_radio.cpp:935-941 | a reported volume is clamped to 0..31 |
| Notifications.HandleLine | components/xrs_radio/xrs_radio.cpp:889-1052 | no line changes the link, the registry or the transport, and every line keeps the status invariant and unique table keys |
| Notifications.IdentityReply | components/xrs_radio/xrs_radio.cpp:899-933 | a `+GMI:`, `+GMM:`, `+GMR:` or `+GSN:` line stores the trimmed text after the tag in its own field and publishes it to that field's sensors; nothing else changes but the log |
| Notifications.VolumeLine | components/xrs_radio/xrs_radio.cpp:935-951 | a `+WGAV:` line stores the reported volume, publishes it to the volume sensors and then the volume numbers, and changes nothing else |
| Notifications.VolumeReport | components/xrs_radio/xrs_radio.cpp:935-951 | the radio's `+WGAV: <v>` report caches v clamped to 0..31 |
| Notifications.IgnoredLines | components/xrs_radio/xrs_radio.cpp:891-892 | `OK`, `ERROR`, the empty line and lines not starting with `+` change nothing |
| Notifications.UnsolicitedLine | components/xrs_radio/xrs_radio.cpp:1046-1051 | an unhandled `+` line is published as the last message and changes nothing else |
| Notifications.PttLineApplied | components/xrs_radio/xrs_radio.cpp:983-990 | a `+WGPTT:` line is always applied, whatever its fields |
| Notifications.PttReport | components/xrs_radio/xrs_radio.cpp:983-990 | a `+WGPTT: <s>,<t>` line sets active, data and timer as the PTT handler does |
| Notifications.ZoneChannelNeedsBoth | components/xrs_radio/xrs_radio.cpp:956 | a `+WGCHS:` line without both numbers changes nothing |
| Notifications.ZoneChannelReport | components/xrs_radio/xrs_radio.cpp:953-967 | `+WGCHS: <z>,<c>` sets the current zone and channel to those numbers |
| Notifications.ModeReport | components/xrs_radio/xrs_radio.cpp:1001-1038 | a mode report sets its flag exactly when the number is non-zero, and a report echoing a toggle agrees with it |
| Notifications.TableLineEffect | components/xrs_radio/xrs_radio.cpp:785-842 | an accepted table line sets the label of its key only, then refreshes every select |
| Notifications.TableLinePublishes | components/xrs_radio/xrs_radio.cpp:785-842 | an accepted table line for another zone or channel only refreshes every select; one for the current zone and channel publishes the new label to the label sensors, or `Z<z> / Ch <c>` when its label is empty, then refreshes every select |
| Notifications.PositionFromReportsOnly | components/xrs_radio/xrs_radio.cpp:953-999 | only a `+WGCHS:` line moves the current channel, and only `+WGCHS:` or `+WHZS:` moves the current zone |
| Notifications.TableLineRejected | components/xrs_radio/xrs_radio.cpp:786-792 | a rejected table line changes nothing |
| Framer.FeedAppend | components/xrs_radio/xrs_radio.cpp:1092-1108 | feeding data in two events is feeding it in one |
| Framer.FeedIgnoresCR | components/xrs_radio/xrs_radio.cpp:1097-1098 | a carriage return anywhere has no effect |
| Framer.FeedPartial | components/xrs_radio/xrs_radio.cpp:1105-1107 | data without a line feed only extends the receive buffer |
| Framer.FeedLine | components/xrs_radio/xrs_radio.cpp:1099-1104 | a line feed hands the buffered line to handle_line_ and empties the buffer; an empty line is dropped |
| Framer.FeedFrames | components/xrs_radio/xrs_radio.cpp:1092-1108 | CR LF framed non-empty lines are each handled once, in order, leaving the buffer empty |
| Framer.BlankLines | components/xrs_radio/xrs_radio.cpp:1099-1100 | blank lines leave no trace |
| Session.ParseMac | components/xrs_radio/xrs_radio.cpp:416-431 | an address is read only from a 17-character text and has six bytes |
| Session.ParseMacText | components/xrs_radio/xrs_radio.cpp:416-431 | every address written as `AA:BB:CC:DD:EE:FF` parses back to itself |
| Session.ParseMacLength | components/xrs_radio/xrs_radio.cpp:417-420 | a text that is not 17 characters long is refused |
| Session.Setup | components/xrs_radio/xrs_radio.cpp:369-414 | bring-up is skipped once done, and otherwise marks Bluetooth ready exactly when the stack came up |
| Session.StartConnection | components/xrs_radio/xrs_radio.cpp:433-454 | a connect goes out exactly when SPP is ready and the MAC is set and parses; connecting is set only if the connect succeeds; nothing else changes |
| Session.NextDelay | components/xrs_radio/xrs_radio.cpp:338-340 | the delay doubles and is capped at 60000 |
| Session.FirstAttemptImmediate | components/xrs_radio/xrs_radio.cpp:331-334 | the first attempt after bring-up or a link event is not delayed |
| Session.NoAttemptWithinDelay | components/xrs_radio/xrs_radio.cpp:333-334 | no attempt is made until the delay has elapsed |
| Session.NoAttemptWhileBusy | components/xrs_radio/xrs_radio.cpp:331 | no attempt is made while connected or connecting |
| Session.AttemptEffect | components/xrs_radio/xrs_radio.cpp:331-341 | an attempt records its time, doubles the delay right away and issues the connect |
| Session.BackoffClosedForm | components/xrs_radio/xrs_radio.cpp:338-340 | after k failed attempts the delay is 2000·2^k for k below 5, and 60000 from then on |
| Session.EventsResetBackoff | components/xrs_radio/xrs_radio.cpp:1063-1081 | INIT and OPEN reset the delay to 2000 and clear the last attempt |
| Session.OpenEffect | components/xrs_radio/xrs_radio.cpp:1071-1081 | OPEN marks the link connected on its handle, publishes connected, then sends the handshake |
| Session.CloseEffect | components/xrs_radio/xrs_radio.cpp:1083-1090 | CLOSE marks the link down and publishes it, and keeps the receive buffer |
| Session.LocationInterval | components/xrs_radio/xrs_radio.cpp:343-355 | after a location upload none follows within the interval |
| Session.LocationSent | components/xrs_radio/xrs_radio.cpp:489-503 | a due upload writes `AT+WGTLOC=000000,<fix>` |
| Session.LoopKeepsInv | components/xrs_radio/xrs_radio.cpp:328-357 | loop keeps the session invariant (delay in 2000..60000, never connected and connecting, handle 0 when down) |
| Session.FeedKeepsInv | components/xrs_radio/xrs_radio.cpp:1092-1108 | received data keeps the session invariant |
| Session.EventKeepsInv | components/xrs_radio/xrs_radio.cpp:1060-1116 | every SPP event keeps the session invariant |
| Session.RegisterKeepsInv | components/xrs_radio/xrs_radio.cpp:31-178 | registering an entity keeps the session invariant, the new entry carrying its own kind |
| Session.CommandKeepsInv | components/xrs_radio/xrs_radio.cpp:180-320 | the volume, mode, location-mode and zone writes and the table request keep the session invariant |
| Session.SettingKeepsInv | components/xrs_radio/xrs_radio.cpp:20-29 | setting the address or the interval, and setup, keep the session invariant |
| Session.StepKeepsInv | components/xrs_radio/xrs_radio.cpp:20-357 | every entry point other than an SPP event keeps the session invariant |
| Session.ApplyKeepsInv | components/xrs_radio/xrs_radio.cpp:20-320 | every public operation keeps the session invariant |
| Session.RunKeepsInv | components/xrs_radio/xrs_radio.cpp:20-1116 | every state reachable from the initial one satisfies the session invariant |
| Radio.XRSRadioComponent.constructor | components/xrs_radio/xrs_radio.h:259-312 | a new component is in the initial state with an empty receive buffer |
| Radio.XRSRadioComponent.Publish | components/xrs_radio/xrs_radio.cpp:193-200 | the loop over the registered entities publishes exactly the fan-out |
| Radio.XRSRadioComponent.SendCommand | components/xrs_radio/xrs_radio.cpp:462-476 | the new state is `RadioState.SendCommand` of the old: while connected with a non-zero handle the command is written with CR LF appended, otherwise nothing changes |
| Radio.XRSRadioComponent.RequestChannelTable | components/xrs_radio/xrs_radio.cpp:755-762 | the new state is `Commands.RequestChannelTable` of the old: `AT_WGCHSQ` is written only while connected (`Commands.RequestChannelTableEffect`) |
| Radio.XRSRadioComponent.SendHandshakeCommands | components/xrs_radio/xrs_radio.cpp:478-487 | the eight calls leave the state `Commands.Handshake` describes: the seven identity queries and then `AT_WGCHSQ`, written in that order (`Commands.HandshakeWrites`) |
| Radio.XRSRadioComponent.GetChannelLabel | components/xrs_radio/xrs_radio.cpp:764-770 | the loop returns the first matching entry's label, or empty |
| Radio.XRSRadioComponent.PublishChannelLabel | components/xrs_radio/xrs_radio.cpp:772-783 | publishes the channel label, with the `Z<z> / Ch <c>` fallback |
| Radio.XRSRadioComponent.RegisterNumericSensor | components/xrs_radio/xrs_radio.cpp:31-47 | appends the sensor and shows it its value |
| Radio.XRSRadioComponent.RegisterBinarySensor | components/xrs_radio/xrs_radio.cpp:49-80 | appends the sensor and shows it its flag |
| Radio.XRSRadioComponent.RegisterTextSensor | components/xrs_radio/xrs_radio.cpp:82-144 | appends the sensor and shows it its text |
| Radio.XRSRadioComponent.RegisterNumber | components/xrs_radio/xrs_radio.cpp:146-150 | appends the number and shows it the volume |
| Radio.XRSRadioComponent.RegisterSwitch | components/xrs_radio/xrs_radio.cpp:152-174 | appends the switch and shows it its flag |
| Radio.XRSRadioComponent.RegisterSelect | components/xrs_radio/xrs_radio.cpp:176-178 | appends the select and publishes nothing |
| Radio.XRSRadioComponent.SetVolume | components/xrs_radio/xrs_radio.cpp:180-201 | the new state is `Commands.SetVolume` of the old: the clamped volume is stored and published, and `AT+WGAV=<v>` is written only while connected (`Commands.SetVolumeEffect`) |
| Radio.XRSRadioComponent.SetLocationMode | components/xrs_radio/xrs_radio.cpp:203-210 | the new state is `Commands.SetLocationMode` of the old: the flag is stored and published to the location-mode switches, and nothing is written (`Commands.SetLocationModeEffect`) |
| Radio.XRSRadioComponent.SetToggle | components/xrs_radio/xrs_radio.cpp:212-290 | the new state is `Commands.SetToggle` of the old: the flag is stored and published, and `<command><0 or 1>` is written only while connected (`Commands.SetToggleEffect`) |
| Radio.XRSRadioComponent.SetTargetZone | components/xrs_radio/xrs_radio.cpp:292-305 | the new state is `Commands.SetTargetZone` of the old: a zone in 1..8 while connected writes `AT+WGZS=<z>`, anything else changes nothing (`Commands.SetTargetZoneEffect`) |
| Radio.XRSRadioComponent.SetTargetZoneChannel | components/xrs_radio/xrs_radio.cpp:307-320 | the new state is `Commands.SetTargetZoneChannel` of the old: a valid pair while connected writes `AT+WGCHS=<z>,<c>`, anything else changes nothing (`Commands.SetTargetZoneChannelEffect`) |
| Radio.XRSRadioComponent.SetMacAddress | components/xrs_radio/xrs_radio.cpp:20 | stores the address and nothing else |
| Radio.XRSRadioComponent.SetLocationInterval | components/xrs_radio/xrs_radio.cpp:27-29 | stores the interval and nothing else |
| Radio.XRSRadioComponent.GetCurrentZone | components/xrs_radio/xrs_radio.h:152 | returns the current zone narrowed to a byte: congruent to it modulo 256, and equal to it in 0..255 |
| Radio.XRSRadioComponent.GetCurrentChannel | components/xrs_radio/xrs_radio.h:153 | returns the current channel narrowed to a byte: congruent to it modulo 256, and equal to it in 0..255 |
| Radio.XRSRadioComponent.CollectZones | components/xrs_radio/xrs_radio.cpp:846-850 | the loop collects each table zone once, in order of first appearance |
| Radio.DefaultZoneList | components/xrs_radio/xrs_radio.cpp:851-854 | the fallback loop yields the zones 1..8 |
| Radio.ZoneTextList | components/xrs_radio/xrs_radio.cpp:856-858 | the loop turns each zone into its `Zone <z>` option, in order |
| Radio.DefaultChannelList | components/xrs_radio/xrs_radio.cpp:863-869 | the nested loops yield `Z<z> / Ch <c>` for zones 1..8 and channels 1..80, zone-major |
| Radio.OptionList | components/xrs_radio/xrs_radio.cpp:879-886 | the loop turns each sorted entry into its option text, in order |
| Radio.XRSRadioComponent.GetZoneOptions | components/xrs_radio/xrs_radio.cpp:844-859 | returns `Zone <z>` for the table's zones in ascending order, or zones 1..8 |
| Radio.XRSRadioComponent.GetChannelOptions | components/xrs_radio/xrs_radio.cpp:861-887 | returns the 640 default options, or one option per entry in (zone, channel) order |
| Radio.XRSRadioComponent.HandlePttNotification | components/xrs_radio/xrs_radio.cpp:628-656 | the new state is `Notifications.HandlePtt` of the old: PTT is active for states 1 and 2, data for state 2, the timer kept for data with a positive timer and 0 otherwise, then flags, timer and text are published (`Notifications.HandlePttPublishes`) |
| Radio.XRSRadioComponent.HandlePowerNotification | components/xrs_radio/xrs_radio.cpp:658-693 | the new state is `Notifications.HandlePower` of the old: the code is stored, low power is published, and the power text only for codes 0..5 (`Notifications.HandlePowerPublishes`) |
| Radio.XRSRadioComponent.HandleModeNotification | components/xrs_radio/xrs_radio.cpp:695-753 | the new state is `Notifications.HandleMode` of the old: the flag is set exactly when the value is non-zero and published to the binary sensors and switches (`Notifications.HandleModePublishes`) |
| Radio.XRSRadioComponent.UpsertEntry | components/xrs_radio/xrs_radio.cpp:824-833 | the loop with early exit replaces the matching entry or appends |
| Radio.XRSRadioComponent.RefreshSelects | components/xrs_radio/xrs_radio.cpp:839-841 | every registered select is told to refresh, in order |
| Radio.XRSRadioComponent.HandleChannelTableLine | components/xrs_radio/xrs_radio.cpp:785-842 | the new state is `Notifications.HandleChannelTableLine` of the old: a rejected line changes nothing; an accepted one upserts its entry, republishes the label if it is the current channel, and refreshes the selects |
| Radio.XRSRadioComponent.HandleIdentityReply | components/xrs_radio/xrs_radio.cpp:899-933 | the new state is `Notifications.HandleIdentity` of the old: the text is stored in its own identity field and shown to the sensors of its type |
| Radio.XRSRadioComponent.HandleVolumeReport | components/xrs_radio/xrs_radio.cpp:935-951 | the new state stores `ReportedVolume(line)` and publishes it to the volume sensors and numbers (`Notifications.VolumeLine`) |
| Radio.XRSRadioComponent.HandleZoneChannelReport | components/xrs_radio/xrs_radio.cpp:953-967 | the new state is `Notifications.HandleZoneChannel` of the old: both values are stored, published to the zone and channel sensors, and the new position's label is published (`Notifications.HandleZoneChannelPublishes`) |
| Radio.XRSRadioComponent.HandleZoneReport | components/xrs_radio/xrs_radio.cpp:970-980 | the new state is `Notifications.HandleZone` of the old: the zone is stored and published, the channel kept, and the new position's label is published (`Notifications.HandleZonePublishes`) |
| Radio.XRSRadioComponent.HandleZoneChannelLine | components/xrs_radio/xrs_radio.cpp:953-968 | a `+WGCHS:` line is read with `+WGCHS: %d,%d` and handled only when both values are read |
| Radio.XRSRadioComponent.HandleZoneLine | components/xrs_radio/xrs_radio.cpp:970-981 | a `+WHZS:` line is handled only when its zone is read |
| Radio.XRSRadioComponent.HandlePttLine | components/xrs_radio/xrs_radio.cpp:983-991 | a `+WGPTT:` line is handled with 0 for each value not read |
| Radio.XRSRadioComponent.HandlePowerLine | components/xrs_radio/xrs_radio.cpp:993-999 | a `+WGPOW:` line is handled only when its state is read |
| Radio.XRSRadioComponent.HandleModeLine | components/xrs_radio/xrs_radio.cpp:1001-1039 | a mode line is handled only when its flag is read |
| Radio.XRSRadioComponent.HandleLine | components/xrs_radio/xrs_radio.cpp:889-1052 | the new state is `Notifications.HandleLine` of the old, so the line takes the branch its prefix selects (`Notifications.ClassifySound`) and keeps the status invariant and unique keys |
| Radio.XRSRadioComponent.InitBluetooth | components/xrs_radio/xrs_radio.cpp:322-326 | the new state is `Session.Setup` of the old: bring-up is skipped once done, and otherwise marks Bluetooth ready exactly when the stack came up |
| Radio.ParseMacBytes | components/xrs_radio/xrs_radio.cpp:416-431 | the byte loop succeeds exactly when the address text parses, and then yields its six bytes |
| Radio.XRSRadioComponent.ParseMacAddress | components/xrs_radio/xrs_radio.cpp:416-431 | succeeds exactly when the address parses, and then returns its six bytes |
| Radio.XRSRadioComponent.StartConnection | components/xrs_radio/xrs_radio.cpp:433-454 | the new state is `Session.StartConnection` of the old: a connect goes out exactly when SPP is ready and the address parses, and connecting is set only when it succeeds |
| Radio.XRSRadioComponent.Loop | components/xrs_radio/xrs_radio.cpp:328-357 | the new state is `Session.Loop` of the old: a connect attempt only after the backoff delay, doubling the delay, and a location upload when due (`Session.AttemptEffect`, `Session.LocationSent`) |
| Radio.XRSRadioComponent.PublishConnectionState | components/xrs_radio/xrs_radio.cpp:505-510 | publishes the connected flag to the connected sensors |
| Radio.XRSRadioComponent.Receive | components/xrs_radio/xrs_radio.cpp:1092-1109 | the new state is `Framer.Feed` of the old, so CR LF framed lines are each handled once, in order (`Framer.FeedFrames`) |
| Radio.XRSRadioComponent.OnSppEvent | components/xrs_radio/xrs_radio.cpp:1060-1116 | the new state is `Session.OnEvent` of the old: INIT and OPEN reset the backoff, OPEN connects and sends the handshake, CLOSE marks the link down, DATA feeds the framer |
| Select.ChannelOptionRoundTrip | components/xrs_radio/select/xrs_select.cpp:79-89 | choosing a table option requests that entry's zone and channel, label or none |
| Select.ChannelOptionsRoundTrip | components/xrs_radio/select/xrs_select.cpp:79-89 | every offered channel option, default or from the table, reads back as its own zone and channel |
| Select.ZoneTextRoundTrip | components/xrs_radio/select/xrs_select.cpp:70-75 | `Zone <z>` reads back as zone z |
| Select.ZoneOptionsRoundTrip | components/xrs_radio/select/xrs_select.cpp:70-75 | every offered zone option reads back as its zone |
| Select.ZoneNumberChoice | components/xrs_radio/select/xrs_select.cpp:71-72 | a bare number is accepted as a zone |
| Select.ChannelNumbersChoice | components/xrs_radio/select/xrs_select.cpp:82-83 | `<z>,<c>` is accepted as a zone and channel |
| Select.RefusedChoice | components/xrs_radio/select/xrs_select.cpp:71-86 | a value that reads as neither form asks nothing of the component |
| Select.ZoneChoiceSends | components/xrs_radio/select/xrs_select.cpp:69-77 | choosing an offered zone in 1..8 while connected writes `AT+WGZS=<z>` |
| Select.InitialZoneChoice | components/xrs_radio/select/xrs_select.cpp:16-23 | the zone select starts on the current zone's option |
| Select.InitialChannelChoice | components/xrs_radio/select/xrs_select.cpp:24-35 | the channel select starts on an option that reads back as the current zone and channel |
| Select.ChannelChoice | components/xrs_radio/select/xrs_select.cpp:28-34 | the shown option is the channel text, or an offered option that is that text followed by `:` |
| Select.PrefixChoice | components/xrs_radio/select/xrs_select.cpp:28-34 | the as-written choice is the first option that begins with the channel text, or that text when no option does |
| Select.PrefixChoiceWrongChannel | components/xrs_radio/select/xrs_select.cpp:28-34 | the as-written prefix match shows channel 40 to a radio on channel 4 |
| Select.XRSRadioSelect.RefreshOptions | components/xrs_radio/select/xrs_select.cpp:44-55 | the options are cleared, and then are the component's zone or channel list when there is a component |
| Select.XRSRadioSelect.Setup | components/xrs_radio/select/xrs_select.cpp:9-37 | registers with the component, loads the options and publishes the initial choice; without a component it does nothing |
| Select.XRSRadioSelect.PublishZoneChoice | components/xrs_radio/select/xrs_select.cpp:16-23 | publishes the current zone's text; the search skips only options that differ from it |
| Select.XRSRadioSelect.PublishChannelChoice | components/xrs_radio/select/xrs_select.cpp:24-35 | publishes the first option that is the current channel's text or that text followed by `:`, or the text itself (the corrected match, `Select.ChannelChoice`) |
| Select.XRSRadioSelect.ChooseOption | components/xrs_radio/select/xrs_select.cpp:63-90 | an accepted value is requested of the component and published; a refused one changes nothing |

## Left out

- Bluetooth controller and Bluedroid bring-up, `esp_spp_init` and callback registration are foreign calls. The model takes their overall success as the `stackOk` parameter of `Session.Setup`.
- `esp_spp_connect`'s return value is the `connectOk` parameter. `millis()` is the `now` parameter. `esp_spp_write`'s result is not modelled: its failure is only logged.
- The static `instance_` and `spp_callback_static` trampoline carry no logic beyond forwarding, so they are not modelled.
- OPEN takes the handle from the event; the event's status field is not consulted by the source and not modelled.
- Session.LocationTick: the latitude/longitude sensors and their NaN and has_state checks are folded into `fix: Option<string>`. The fix is `None` when no usable fix exists, and otherwise the text that `%.6f,%.6f` would print. Floating-point formatting is not modelled. `set_location_sensors` is not modelled for the same reason.
- ChannelTable.ParseTableLine: the receive and transmit frequencies (`atof`) are kept as their field text, not as floats. They are never read back.
- Commands.SetVolume takes the volume already rounded to an int. The float `+ 0.5f` rounding and the cast are not modelled.
- Notifications.ReportedVolume reads the number from the eighth character on, as `atoi(line.c_str() + 7)` does. For the bare six-character line `+WGAV:`, that pointer lies past the string's terminator, which is undefined behaviour in C++. The model reads that line as volume 0.
- CLib.Atoi / CLib.ScanSigned: a numeral is read as an unbounded integer. In C, an `atoi` or `sscanf("%d")` value outside the range of `int` is undefined behaviour. So the model clamps a report such as `+WGAV: 99999999999` to 31, which a typical C library need not do.
- Session.ParseMac: the `%x` conversions accept hex digits after optional white space. The optional sign and `0x` prefix that C's `%x` also accepts are not modelled, so such texts are refused.
- close_connection_ is declared and defined but never called in the component, so it is not modelled.
- `set_zone` and `set_channel` are declared in the header but never defined, so they are not modelled.
- Logging and `dump_config` are not modelled. `publish_all_state_` is defined but never called, so it is not modelled either.
- `get_traits` of the select only copies the options out, so it is not modelled.
- The Python code-generation files and the switch and number entity wrappers are not part of this model; they only forward to the component.
- Radio.XRSRadioComponent: the fields are grouped into records (link, identity, status, registry, location), which the methods update field by field. Each entity's `publish_state` is recorded in the `published` log rather than kept per entity.
- The select's header declares `refresh_from_parent` and `update_options_`, but the source file defines `refresh_options` and fills `options_`. The model follows the source file.
- Select.XRSRadioSelect.Setup: its channel branch uses the corrected match of the finding below, not the prefix match as written. The as-written behaviour is `Select.PrefixChoice`.
- Select.XRSRadioSelect.PublishChannelChoice: publishes the corrected match `Select.ChannelChoice`, not the `rfind(desired, 0) == 0` prefix match of xrs_select.cpp:28-34, so on zone 1 channel 4 with only channel 40 in the table it shows "Z1 / Ch 4" where the source shows "Z1 / Ch 40". The as-written choice is `Select.PrefixChoice`, and the finding below records the difference.
- Notifications.IdentityReply: the identity replies trim their text with `str_trim_copy`, which no source file of this model defines. The model assumes it trims `isspace` characters from both ends, as `ATParser.Trim` does.

## Findings

| source | as written | input that shows it | evidently intended | confidence | as-written member | corrected member |
|---|---|---|---|---|---|---|
| components/xrs_radio/select/xrs_select.cpp:28-34 | setup picks the first option that merely begins with `Z<z> / Ch <c>` | table holding only zone 1 channel 40, radio on zone 1 channel 4: "Z1 / Ch 4" is a prefix of "Z1 / Ch 40", so the select starts on channel 40 | show the option for the current channel: the text itself or the text followed by `: <label>` | not executed | Select.PrefixChoiceWrongChannel | Select.InitialChannelChoice |
