# canipy protocol engine in Dafny

canipy is a client for satellite-radio tuners. The host and the tuner
exchange frames over a serial line. Each frame is the marker `5A A5`, a
big-endian 16-bit length, the payload and the trailer `ED ED`. The first
payload byte is the command or response code.

This project models the protocol engine of that client:

- **Framing.** The encoder (`CaniTX.send`, the older `CaniPy.pcr_tx`) and
  the deframer (`CaniThread.thread_buffer`). The deframer reads a 5-byte
  header, checks the marker, reads the length + 1 remaining bytes and drops
  the trailer. The module is `Framer`; the loop is `Framer.ThreadBuffer`,
  proved against the function `Framer.Deframe`.
- **Command catalogue.** Every byte layout the client sends is a
  constructor of `Commands.Command`. `Commands.Encode` writes it and
  `Commands.Decode` reads it back, with round trips in both directions.
  The senders are `CaniTx`, `CaniDx` (the "direct" tuner enable sequence),
  `CaniWx` (data-channel commands) and `Prototype` (the two early
  single-class prototypes).
- **Session state.** The tuner session (`Session.CaniPy`) holds:
  - channel number and service ID;
  - labels: channel name, artist, title, category name and category ID;
  - signal levels, radio ID and satellite clock;
  - the direct idle-frame counter and the data-in-use flag;
  - the serial port: whether it is open, the inbound byte stream and the
    log of frames written;
  - the list of notices printed to the user.
- **Responses.** Response handling updates that session:
  - the newer dispatcher `CaniConductor.go`, with the parsers of the newer
    `CaniRX` (`CaniRx`);
  - the read loop `CaniThread.thread_read` (`CaniThread`);
  - the older dispatcher `CaniPy.rx_response` with its own `CaniRX`
    (`LegacyCaniPy`, `LegacyRx`). This older pair is kept apart because it
    behaves differently.

Every operation that changes state is a method of a class. The class is
`Session.CaniPy`, or a helper class that holds a `parent: CaniPy`. Each
method's `ensures` ties the result and the new state (`Snapshot()`) to a
pure step function over the value `Session.State`. The lemmas state the
properties of those step functions.

Python exceptions are modelled as results of type
`Session.Result.Raised`:

- `IndexError`: a payload too short for the bytes a branch indexes;
- `ValueError`: `bytes([...])` with a value outside 0..255, or an invalid
  `datetime`;
- `OverflowError`: `to_bytes(2)` on a length of 65536 or more.

## Model

| member | source | states |
|---|---|---|
| Bytes.Be16Injective | utils/comm/canitx.py:66 | The two length bytes written by `len(payload).to_bytes(2, 'big')` determine the length. |
| Bytes.RStripNulPadding | utils/comm/canirx.py:156 | `rstrip(chr(0))` of a label followed by NUL padding gives back exactly the label. |
| Bytes.StripKeepsInner | utils/comm/caniconductor.py:157 | `strip()` leaves unchanged a label that neither starts nor ends with whitespace. |
| Bytes.Hex2RoundTrip | utils/comm/canirx.py:93 | Each `:02X` pair reads back as the byte it formats. |
| Bytes.Hex2Injective | utils/comm/canirx.py:93 | Different bytes format as different `:02X` pairs. |
| Bytes.PyHex | utils/comm/caniconductor.py:278 | `hex(b)` of a byte is "0x" followed by one or two digits. |
| Framer.Frame | utils/comm/canitx.py:66-67 | A frame is `5A A5`, the length as two big-endian bytes, the payload, then `ED ED`; it is 6 bytes longer than the payload. |
| Framer.FrameInjective | utils/comm/canitx.py:66-67 | Different payloads give different frames. |
| Framer.Deframe | utils/comm/canithread.py:51-129 | With the port closed nothing is read. With the port open and input pending, at least one byte is consumed. What is left is a suffix of the stream. |
| Framer.ThreadBuffer | utils/comm/canithread.py:51-125 | The header loop over partial reads and the body read return exactly the payload and remaining stream that `Deframe` specifies. |
| Framer.DeframeFrame | utils/comm/canithread.py:106-125 | Round trip: deframing the encoding of a payload of length 1..65535 returns that payload and leaves the following bytes unread. |
| Framer.DeframeEmptyFrame | utils/comm/canithread.py:106-125 | The encoding of an empty payload does not round-trip: the deframer returns the first trailer byte `ED`. |
| Framer.DeframedShape | utils/comm/canithread.py:89-125 | A non-empty result means: no cancel signal, a `5A A5` marker, a length equal to the size field (1 for size 0), first byte = header byte 4, and at least size + 6 bytes in the stream. |
| Framer.TrailerUnchecked | utils/comm/canithread.py:125 | Any two bytes in the trailer position are accepted and dropped. |
| Framer.BadMarkerDiscardsHeader | utils/comm/canithread.py:89-101 | A header without the `5A A5` marker yields an empty buffer and discards the 5 header bytes. |
| Framer.ShortBodyDeliversNothing | utils/comm/canithread.py:106-122 | A body shorter than size + 1 bytes yields an empty buffer. |
| Framer.SignalDeliversNothing | utils/comm/canithread.py:80-87 | When the cancel signal is set during the header read, the result is empty. |
| Commands.Encode | utils/comm/canitx.py:73-383 | Every command layout in the catalogue is 1 to 6 bytes long. |
| Commands.DecodeEncode | utils/comm/canitx.py:73-383 | Decoding the bytes of any command gives that command back. |
| Commands.EncodeDecode | utils/comm/canitx.py:73-383 | Any byte string that decodes to a command is exactly that command's encoding. |
| Commands.EncodeDecodeSix | utils/comm/canitx.py:133-159 | The same round trip for the 6-byte layouts (channel change and channel monitor). |
| Commands.EncodeInjective | utils/comm/canitx.py:73-383 | No two commands share a byte layout. |
| Session.Transmit | utils/comm/canitx.py:47-71 | `send` either leaves the session unchanged or appends exactly the frame of the payload to the sent log, and a write is reported by echoing the payload. |
| Session.TransmitClosedPort | utils/comm/canitx.py:63-65 | With no open port nothing is written and the result is empty. |
| Session.TransmitWritesFrame | utils/comm/canitx.py:66-71 | With the port open, `5A A5 ++ be16(len) ++ p ++ ED ED` is appended and `p` is returned. |
| Session.TransmitRadioIdExample | utils/canipy.py:154-158 | Payload `31` is framed as `5A A5 00 01 31 ED ED`. |
| Session.TransmitThenDeframe | utils/canipy.py:154-158 | The frame just written deframes back to the payload. |
| Session.ChannelQuery | utils/canipy.py:128-129 | The next/prev channel-info lambdas send `25 q ch 00` for the current channel. A channel outside 0..255 raises `ValueError`. |
| Session.WithNotice | utils/canipy.py:27-43 | A print appends exactly one notice and changes nothing else. |
| Session.DisplayDefaults | utils/canipy.py:88-104 | Resetting the display zeroes the channel fields, clears the labels and sets the signal levels to -1. |
| Session.DisplayDefaultsRestoresInitial | utils/canipy.py:88-104 | The display reset puts every displayed field back to its initial value and keeps the port, radio ID, counters and notices. |
| Session.DisplayDefaultsIdempotent | utils/canipy.py:88-104 | Resetting twice is the same as resetting once. |
| Session.CaniPy.constructor | utils/canipy.py:84-104 | Initial state: channel 0, service ID 0, category ID 0, empty labels and radio ID, signal levels -1, idle frames 0, not verbose, nothing sent. |
| Session.CaniPy.PcrTx | utils/canipy.py:138-162 | `pcr_tx` changes the session and returns exactly as `Transmit` specifies. |
| Session.CaniPy.NextChannelInfo | utils/canipy.py:128 | Sends `25 09 ch 00` as `ChannelQuery` specifies. |
| Session.CaniPy.PrevChannelInfo | utils/canipy.py:129 | Sends `25 0A ch 00` as `ChannelQuery` specifies. |
| CaniTx.PowerUpStep | utils/comm/canitx.py:73-93 | Label sizes outside 0..255 raise `ValueError` and send nothing. |
| CaniTx.SetLineVolStep | utils/comm/canitx.py:112-131 | A level outside 0..255 raises `ValueError` and sends nothing. |
| CaniTx.FirmVerStep | utils/comm/canitx.py:368-383 | A magic byte outside 0..255 raises `ValueError` and sends nothing. |
| CaniTx.ChangeChannelOutOfRange | utils/comm/canitx.py:151-153 | A channel outside 0..255 returns empty, sends nothing and leaves the session unchanged. |
| CaniTx.ChangeChannelSetsOne | utils/comm/canitx.py:155-158 | In range, exactly one of the channel number and the service ID is set, chosen by `is_sid`, and the labels and input are untouched. |
| CaniTx.ChangeChannelSends | utils/comm/canitx.py:133-159 | Sends and returns `[10, 02-is_sid, ch, data, prg_type, 01+data]`. |
| CaniTx.ChangeChannelExample | utils/comm/canitx.py:159 | Channel 1 with the defaults gives `10 02 01 00 00 01`. |
| CaniTx.ChangeChannelBadProgramType | utils/comm/canitx.py:155-159 | A program type outside 0..255 raises `ValueError`, but only after the channel field has been assigned. |
| CaniTx.ChannelCancelSends | utils/comm/canitx.py:161-186 | A channel outside 0..255 returns empty and sends nothing; otherwise `11 ch data` is framed, written and returned. |
| CaniTx.ChanMonChannelZero | utils/comm/canitx.py:337-344 | Channel 0 forces the four monitor flags to 0; the opcode is `50 - is_data_on`. |
| CaniTx.ChanMonFlags | utils/comm/canitx.py:315-344 | For a non-zero channel the four flags are sent as given. |
| CaniTx.InfoRequests | utils/comm/canitx.py:205-248 | `channel_info` sends `25 (08-is_sid) ch prg` and `ext_info` sends `22 ch`. Both return empty and send nothing for a channel outside 0..255. |
| CaniTx.DefaultPayloads | utils/comm/canitx.py:73-383 | The `power_up` default is `00 10 10 24 01`; `get_radioid`, `signal_info` and `firm_ver()` send `31`, `43` and `70 05`. |
| CaniTx.CaniTx.Send | utils/comm/canitx.py:47-71 | `send` behaves exactly as `Transmit`; it is the session's `PcrTx` applied to the parent. |
| CaniTx.CaniTx.PowerUp | utils/comm/canitx.py:73-93 | Result and new session as `PowerUpStep` specifies. |
| CaniTx.CaniTx.PowerDown | utils/comm/canitx.py:95-110 | Transmits the `PowerDown` layout `01 pwr_sav`. |
| CaniTx.CaniTx.SetLineVol | utils/comm/canitx.py:112-131 | Result and new session as `SetLineVolStep` specifies. |
| CaniTx.CaniTx.ChangeChannel | utils/comm/canitx.py:133-159 | Result and new session as `ChangeChannelStep` specifies; the lemmas above state its properties. |
| CaniTx.CaniTx.ChannelCancel | utils/comm/canitx.py:161-186 | Channel range check, then sends `11 ch data`, as `ChannelCancelStep` specifies. |
| CaniTx.CaniTx.SetMute | utils/comm/canitx.py:188-203 | Transmits `13 mute`. |
| CaniTx.CaniTx.ExtInfo | utils/comm/canitx.py:205-225 | As `ExtInfoStep` specifies (see `InfoRequests`). |
| CaniTx.CaniTx.ChannelInfo | utils/comm/canitx.py:227-248 | As `ChannelInfoStep` specifies (see `InfoRequests`). |
| CaniTx.CaniTx.GetRadioId | utils/comm/canitx.py:250-262 | Transmits `31`. |
| CaniTx.CaniTx.SignalMon | utils/comm/canitx.py:264-281 | Transmits `42 toggle`. |
| CaniTx.CaniTx.SignalInfo | utils/comm/canitx.py:283-296 | Transmits `43`. |
| CaniTx.CaniTx.ClockMon | utils/comm/canitx.py:298-313 | Transmits `4E toggle`. |
| CaniTx.CaniTx.ChanMon | utils/comm/canitx.py:315-344 | As `ChanMonStep` specifies (see `ChanMonChannelZero`, `ChanMonFlags`). |
| CaniTx.CaniTx.DiagMon | utils/comm/canitx.py:346-366 | Transmits `60 toggle`. |
| CaniTx.CaniTx.FirmVer | utils/comm/canitx.py:368-383 | Result and new session as `FirmVerStep` specifies. |
| CaniDx.EnableSendsThree | utils/comm/special/canidx.py:14-35 | With the port open, `enable` appends exactly three frames, in order: listen on, voltage on/on, DAC unmute. |
| CaniDx.EnableClosedPort | utils/comm/special/canidx.py:27-35 | With the port closed, `enable` changes nothing. |
| CaniDx.EnableCommands | utils/comm/special/canidx.py:27-97 | The three layouts are `74 00 01`, `74 02 01 01` and `74 0B 00`, and each decodes back to its command. |
| CaniDx.CaniDx.Enable | utils/comm/special/canidx.py:14-35 | The new session is exactly `EnableStep` of the old one. |
| CaniDx.CaniDx.ComListen | utils/comm/special/canidx.py:37-54 | Transmits `74 00 t` and returns what `send` returns. |
| CaniDx.CaniDx.Voltage | utils/comm/special/canidx.py:56-77 | Transmits `74 02 a b` and returns what `send` returns. |
| CaniDx.CaniDx.DacMute | utils/comm/special/canidx.py:79-97 | Transmits `74 0B m` and returns what `send` returns. |
| CaniWx.ChangeDatachanRejects | utils/comm/special/caniwx.py:33-35 | A SID outside 0..255 sends nothing and returns empty. |
| CaniWx.ChangeDatachanSends | utils/comm/special/caniwx.py:17-37 | In range, `4A 10 sid f1 f2` is framed, written and returned. |
| CaniWx.ChangeDatachanExample | utils/comm/special/caniwx.py:17-37 | SID 240 with the defaults writes `4A 10 F0 00 00`. |
| CaniWx.DataStopSends | utils/comm/special/caniwx.py:15 | `data_stop` writes `4A 10 FF 01 01`. |
| CaniWx.GpsModuleToggle | utils/comm/special/caniwx.py:84 | `wrgps_conn` sends `4B 09 00 01` when the toggle is on and `4B 09 00 03` when it is off, and the bytes decode back. |
| CaniWx.CaniWx.ChangeDatachan | utils/comm/special/caniwx.py:17-37 | As `ChangeDatachanStep` specifies. |
| CaniWx.CaniWx.DataStop | utils/comm/special/caniwx.py:15 | As `DataStopStep` specifies. |
| CaniWx.CaniWx.Ping | utils/comm/special/caniwx.py:39-51 | Transmits `4A 43`. |
| CaniWx.CaniWx.FirmVer | utils/comm/special/caniwx.py:53-64 | Transmits `4A 44`. |
| CaniWx.CaniWx.WrgpsConn | utils/comm/special/caniwx.py:66-84 | Transmits the GPS-module layout (see `GpsModuleToggle`). |
| CaniRx.GenericAlert | utils/comm/canirx.py:92-93 | The generic alert is "Radio reported alert " followed by two 2-digit hex fields. |
| CaniRx.GenericAlertInjective | utils/comm/canirx.py:92-93 | The generic alert text determines the status and detail bytes. |
| CaniRx.FetchStatusOk | utils/comm/canirx.py:30-35 | "OK" exactly for `01 00`; "Normal status" exactly for `01` with any other detail. |
| CaniRx.FetchStatusSubscription | utils/comm/canirx.py:60-66 | Status `03` always starts with "Not subscribed"; there is a suffix exactly for details `09` and `0A`. |
| CaniRx.FetchStatusGeneric | utils/comm/canirx.py:92-94 | Any unlisted status gives the generic alert naming both bytes, and the text tells such inputs apart. |
| CaniRx.PadSignal | utils/comm/canirx.py:230-233 | A C1 report gets `01 00` inserted after the code and two zero bytes appended. |
| CaniRx.SignalLevels | utils/comm/canirx.py:221-237 | For lengths 22/26, the signal, antenna and terrestrial levels are bytes 1..3 of a C1 report and bytes 3..5 otherwise; nothing else changes. |
| CaniRx.SignalRaises | utils/comm/canirx.py:245-270 | Only the verbose printout of an unpadded 22-byte report indexes past the end (`IndexError`). |
| CaniRx.ClockDay | utils/comm/canirx.py:292 | The packed day is in 0..31. |
| CaniRx.WeekdayKey | utils/comm/canirx.py:312 | The weekday key `(p4>>4)` with its low bit cleared is even and in 0..14. |
| CaniRx.DecodeClock | utils/comm/canirx.py:287-297 | The decoded year is in 0..25755 and the second in 0..127. |
| CaniRx.ClockFields | utils/comm/canirx.py:287-297 | A stored clock has year `p1*100+p2`, month `p3`, day `(p4&0F)+16·((p4>>4) odd)`, hour `p5`, minute `p6` and second `p7&7F`; it is a valid date-time; nothing else changes. |
| CaniRx.ClockBadSecond | utils/comm/canirx.py:287-297 | A second field above 59 raises `ValueError` and stores nothing. |
| CaniRx.WrongLengthOnlyLogs | utils/comm/canirx.py:96-381 | At a wrong length each parser only logs "Payload not of correct length"; `parse_firminf` never changes more than the notices. |
| CaniRx.StartupRadioId | utils/comm/canirx.py:104-115 | At length 27 the radio ID becomes `p[19:27]`, nothing else changes, and a warning is issued exactly for an activation byte other than 00/01/03. |
| CaniRx.ExtInfoOnlyCurrent | utils/comm/canirx.py:147-162 | Artist and title change only for status 01, flag byte 1 and `p3 == ch_num`. They then become `p[5:37]` and `p[42:74]` with NULs stripped. Nothing else changes. |
| CaniRx.ChannelMatch | utils/comm/canirx.py:181-190 | At length 77 the channel fields are set from `p3`/`p4` whenever either matches, whatever the status; otherwise nothing changes. |
| CaniRx.ChannelLabels | utils/comm/canirx.py:191-211 | For the current channel and status 01: name `p[6:22]`, artist `p[41:57]`, title `p[57:73]`, category `p[24:40]` and ID `p23`, each set when its flag byte is 1 and left unchanged otherwise. |
| CaniRx.StartupOnlyStores | utils/comm/canirx.py:96-381 | `parse_startup` and `parse_firminf` never send a frame nor consume input. |
| CaniRx.LabelParsersOnlyStore | utils/comm/canirx.py:133-219 | `parse_extinfo` and `parse_chan` never send a frame nor consume input. |
| CaniRx.SignalClockOnlyStore | utils/comm/canirx.py:221-355 | `parse_sig` and `parse_clock` never send a frame nor consume input. |
| CaniRx.CaniRx.ParseStartup | utils/comm/canirx.py:96-131 | New session = `StartupReport` of the old one. |
| CaniRx.CaniRx.ParseExtInfo | utils/comm/canirx.py:133-170 | New session = `ExtInfoReport` of the old one. |
| CaniRx.CaniRx.ParseChan | utils/comm/canirx.py:172-219 | New session = `ChannelReport` of the old one. |
| CaniRx.CaniRx.ParseSig | utils/comm/canirx.py:221-275 | Result and new session = `SignalReport`. |
| CaniRx.CaniRx.ParseClock | utils/comm/canirx.py:277-355 | Result and new session = `ClockReport`. |
| CaniRx.CaniRx.ParseFirmInf | utils/comm/canirx.py:357-381 | New session = `FirmwareReport` of the old one. |
| CaniConductor.LineLevelDb | utils/comm/caniconductor.py:38-42 | The code 8B line level is `-p3` for `p3 <= 0x60` and `p3 - 0x60` above: non-positive exactly up to 0x60, in -96..159. |
| CaniConductor.LineLevelRoundTrip | utils/comm/caniconductor.py:38-42 | The decoding is a bijection between bytes and -96..159. |
| CaniConductor.FollowUpsSucceed | utils/comm/caniconductor.py:54-77 | The follow-up requests the dispatcher issues always pass their range checks. |
| CaniConductor.TunedSends | utils/comm/caniconductor.py:63-77 | After a good tune: `channel_info(ch)` then `ext_info(ch)` are sent, and `chan_mon` only in GUI mode. The channel fields are set from the report and the labels cleared. |
| CaniConductor.TuneOk | utils/comm/caniconductor.py:43-77 | Code 90 with `01 00`: sets `ch_sid = p3`, `ch_num = p4` and `data_in_use`, clears the labels, sends the follow-ups in order; nothing else changes. |
| CaniConductor.TuneFollowUpLayouts | utils/comm/caniconductor.py:63-77 | The follow-ups are `25 08 ch 00`, `22 ch` and `50 ch f f f f` with `f = (ch != 0)`. |
| CaniConductor.TuneNotOk | utils/comm/caniconductor.py:45-62 | Code 90 with `04 0E` only sends `get_radioid`; any other non-OK status only warns; neither changes the channel fields; `data_in_use` is set first. |
| CaniConductor.TuneTooShort | utils/comm/caniconductor.py:45-77 | A code-90 report shorter than 6 bytes raises `IndexError` before any change. |
| CaniConductor.TuneCancel | utils/comm/caniconductor.py:78-88 | Code 91: a non-zero `p4` sets `ch_sid = p3`, otherwise `ch_num = p3`. |
| CaniConductor.ChannelInfoNotices | utils/comm/caniconductor.py:93-105 | Code A5 with `02 04` or `04 0E` never reaches `parse_chan`: the channel fields, labels and radio ID are unchanged. |
| CaniConductor.RadioId | utils/comm/caniconductor.py:106-116 | Code B1 sets `radio_id = p[4:12]` only at length 12 and otherwise logs; nothing else changes. |
| CaniConductor.ChannelNameOnlyCurrent | utils/comm/caniconductor.py:153-166 | Code D1 sets the stripped channel name `p[3:19]` only when the flag is 1 and `p1 == ch_num`. |
| CaniConductor.CategoryOnlyCurrent | utils/comm/caniconductor.py:167-177 | Code D2 sets category ID and name only when the flag is 1 and `p1 == ch_num`. |
| CaniConductor.ProgramOnlyCurrent | utils/comm/caniconductor.py:178-187 | Code D3 sets artist `p[3:19]` and title `p[19:]` only when the flag is 1 and `p1 == ch_num`. |
| CaniConductor.ExtendedChangeRefetches | utils/comm/caniconductor.py:188-209 | Codes D4/D5 only send `ext_info(p1)`, and only when the flag is 1. |
| CaniConductor.IdleFrameCounted | utils/comm/caniconductor.py:259-262 | Code F2 increments `direct_idleframes` by exactly 1 and changes nothing else. |
| CaniConductor.UnknownCodeOnlyLogs | utils/comm/caniconductor.py:277-280 | An unknown code only logs "Unknown return code 0x..". |
| CaniConductor.EmptyPayloadRaises | utils/comm/caniconductor.py:22 | An empty payload raises `IndexError` and changes nothing. |
| CaniConductor.ProgramLengthOnlyReads | utils/comm/caniconductor.py:210-220 | Code D6 never changes the session. It raises `IndexError` below 4 bytes, at 4 bytes unless `p3` is 1, below 7 bytes when `p3` is 1, and below 9 bytes when `p4` is 1. It succeeds at 9 bytes or more, and from 5 bytes when neither flag is set. |
| CaniConductor.PrintOnlyCodes | utils/comm/caniconductor.py:89-247 | Codes 93, CF, D0 and EA never change the session; they raise `IndexError` exactly when the printed byte (byte 3, or byte 1 for EA) is missing. |
| CaniConductor.AppendsTrans | utils/comm/caniconductor.py:11-280 | The dispatcher invariant "sent log and notices only grow, input is not consumed" composes. |
| CaniConductor.TransmitAppends | utils/comm/canitx.py:47-71 | `send` keeps that invariant. |
| CaniConductor.TunedAppends | utils/comm/caniconductor.py:63-77 | The tune follow-ups keep the invariant and set the channel fields to the report's values. |
| CaniConductor.StartupAppends | utils/comm/caniconductor.py:23-29 | Code 80 keeps the invariant and leaves the channel fields alone. |
| CaniConductor.TuneAppends | utils/comm/caniconductor.py:43-77 | Code 90 keeps the invariant and leaves channel fields within 0..255. |
| CaniConductor.ChannelInfoAppends | utils/comm/caniconductor.py:93-105 | Code A5 keeps the invariant. |
| CaniConductor.ExtendedChangeAppends | utils/comm/caniconductor.py:188-209 | Codes D4/D5 keep the invariant. |
| CaniConductor.PowerOffPreserves | utils/comm/caniconductor.py:30-37 | Code 81 keeps the invariant. |
| CaniConductor.RadioIdPreserves | utils/comm/caniconductor.py:106-116 | Code B1 keeps the invariant. |
| CaniConductor.DataReplyPreserves | utils/comm/caniconductor.py:121-144 | Code CA keeps the invariant. |
| CaniConductor.LabelUpdatesPreserve | utils/comm/caniconductor.py:153-187 | Codes D1, D2 and D3 keep the invariant. |
| CaniConductor.ErrorReportPreserves | utils/comm/caniconductor.py:263-276 | Code FF keeps the invariant. |
| CaniConductor.GoPreservesPower | utils/comm/caniconductor.py:23-90 | Every code below A0 keeps the invariant. |
| CaniConductor.GoPreservesInfo | utils/comm/caniconductor.py:91-152 | Every code A0..D0 keeps the invariant. |
| CaniConductor.GoPreservesLabels | utils/comm/caniconductor.py:153-224 | Every code D1..DF keeps the invariant. |
| CaniConductor.GoPreservesStatus | utils/comm/caniconductor.py:225-280 | Every code from E0 up keeps the invariant. |
| CaniConductor.GoPreserves | utils/comm/caniconductor.py:11-280 | `go` never removes a sent frame or a notice, never consumes input, and keeps the channel fields within 0..255. |
| CaniConductor.CaniConductor.Startup | utils/comm/caniconductor.py:23-29 | New session = `OnStartup` of the old one. |
| CaniConductor.CaniConductor.PowerOff | utils/comm/caniconductor.py:30-37 | As `OnPowerOff` specifies. |
| CaniConductor.CaniConductor.Tune | utils/comm/caniconductor.py:43-77 | As `OnTune` specifies (see `TuneOk`, `TuneNotOk`). |
| CaniConductor.CaniConductor.TuneTo | utils/comm/caniconductor.py:63-77 | As `Tuned` specifies (see `TunedSends`). |
| CaniConductor.CaniConductor.TuneCancel | utils/comm/caniconductor.py:78-88 | As `OnTuneCancel` specifies. |
| CaniConductor.CaniConductor.ChannelInfo | utils/comm/caniconductor.py:93-105 | As `OnChannelInfo` specifies. |
| CaniConductor.CaniConductor.RadioId | utils/comm/caniconductor.py:106-116 | As `OnRadioId` specifies. |
| CaniConductor.CaniConductor.DataReply | utils/comm/caniconductor.py:121-144 | As `OnDataReply` specifies. |
| CaniConductor.CaniConductor.ChannelName | utils/comm/caniconductor.py:153-166 | As `OnChannelName` specifies. |
| CaniConductor.CaniConductor.Category | utils/comm/caniconductor.py:167-177 | As `OnCategory` specifies. |
| CaniConductor.CaniConductor.Program | utils/comm/caniconductor.py:178-187 | As `OnProgram` specifies. |
| CaniConductor.CaniConductor.ExtendedChange | utils/comm/caniconductor.py:188-209 | As `OnExtendedChange` specifies. |
| CaniConductor.CaniConductor.ProgramLength | utils/comm/caniconductor.py:210-220 | As `OnProgramLength` specifies; `ProgramLengthOnlyReads` states what that is. |
| CaniConductor.CaniConductor.ErrorReport | utils/comm/caniconductor.py:263-276 | Code FF raises `IndexError` below 3 bytes and otherwise appends one error notice. |
| CaniConductor.CaniConductor.Need | utils/comm/caniconductor.py:89-247 | As `Needs` specifies; `PrintOnlyCodes` states what that means for the print-only codes. |
| CaniConductor.CaniConductor.Go | utils/comm/caniconductor.py:11-280 | `go` changes the session and returns exactly as `GoStep` specifies. |
| CaniThread.ReadLoopDispatchesFrame | utils/comm/canithread.py:46-49 | A well-formed frame at the head of the input is handed to the dispatcher with the bytes after it left pending. |
| CaniThread.ReadLoopSkipsEmpty | utils/comm/canithread.py:48 | An empty buffer is not handed on; the loop continues on the rest of the input. |
| CaniThread.ReadLoopDispatches | utils/comm/canithread.py:46-49 | A non-empty buffer is dispatched; the loop stops on a raised error and otherwise continues. |
| CaniThread.ProgressTrans | utils/comm/canithread.py:46-49 | "Input is only consumed, sent frames and notices only grow" composes. |
| CaniThread.ConsumeProgress | utils/comm/canithread.py:47 | Each read makes progress. |
| CaniThread.ReadLoopProgress | utils/comm/canithread.py:41-49 | The whole read loop makes progress. |
| CaniThread.ReadLoopDrains | utils/comm/canithread.py:46-49 | Unless a handler raises, the loop ends with all input consumed. |
| CaniThread.CaniThread.ThreadRead | utils/comm/canithread.py:41-49 | The loop changes the session and returns exactly as `ReadLoop` specifies. |
| LegacyRx.PrintedDay | utils/canirx.py:218 | The older printout shows the day as `p4 & 0F`, in 0..15. |
| LegacyRx.StartupRadioId | utils/canirx.py:21-39 | `radio_id = p[19:27]` only at length 27; any other length changes nothing. |
| LegacyRx.ExtInfoOnlyCurrent | utils/canirx.py:58-72 | Status 03 returns before any write. Otherwise artist `p[5:37]` and title `p[57:73]` are stored only for flag 1 and `p3 == ch_num`. |
| LegacyRx.ExtInfoTitleNotPrinted | utils/canirx.py:69-72 | The stored title slice `57:73` is not the printed one `42:74`: a title ending before byte 57 is printed but stored empty, where the newer parser stores it. |
| LegacyRx.ExtInfoArtistAgrees | utils/canirx.py:65-68 | For status 01 the artist and all other fields agree with the newer parser. |
| LegacyRx.ChannelMatch | utils/canirx.py:91-109 | Channel fields are updated on a match even when status 03/04 aborts the label writes; without a match nothing changes. |
| LegacyRx.ChannelAgreesOnOk | utils/canirx.py:79-130 | For status 01 the older `parse_chan` agrees with the newer one. |
| LegacyRx.ChannelOtherStatusStores | utils/canirx.py:91-109 | For a status other than 01/03/04, the older parser still stores the channel name, which the newer one does not. |
| LegacyRx.SignalAgreesWithNewer | utils/canirx.py:141-148 | `parse_sig` applies the same C1 padding and level extraction as the newer version; other lengths change nothing. |
| LegacyRx.PrintedDayMatches | utils/canirx.py:218 | The printed day equals the decoded day exactly when bit 4 of `p4` is clear; otherwise it is 16 less. |
| LegacyRx.ParsersOnlyStore | utils/canirx.py:14-184 | Each older parser changes only the fields it stores. |
| LegacyRx.CaniRx.ParseStartup | utils/canirx.py:14-39 | New session = `StartupReport`. |
| LegacyRx.CaniRx.ParseExtInfo | utils/canirx.py:41-77 | New session = `ExtInfoReport`. |
| LegacyRx.CaniRx.ParseChan | utils/canirx.py:79-130 | New session = `ChannelReport`. |
| LegacyRx.CaniRx.ParseSig | utils/canirx.py:132-184 | Result and new session = `SignalReport`. |
| LegacyCaniPy.EmptyPayloadRaises | utils/canipy.py:175 | An empty payload raises `IndexError`. |
| LegacyCaniPy.UnknownCodeChangesNothing | utils/canipy.py:397-398 | Unknown codes change no state. |
| LegacyCaniPy.TuneRefused | utils/canipy.py:184-200 | Code 90 with status 03 or 04 returns without changing anything. |
| LegacyCaniPy.TuneStoresAndRequests | utils/canipy.py:201-210 | Otherwise `ch_sid = p3` and `ch_num = p4` are set, `25 08 p4 00` is sent, and the labels are kept. |
| LegacyCaniPy.TunePartialWrite | utils/canipy.py:201-210 | A 4- or 5-byte code-90 report raises `IndexError` after the assignments made before the missing byte. |
| LegacyCaniPy.TuneCancelSplit | utils/canipy.py:215-218 | Code 91: a non-zero `p4` sets `ch_sid = p3`, otherwise `ch_num = p3`. |
| LegacyCaniPy.RadioIdLength | utils/canipy.py:229-236 | Code B1 sets `radio_id = p[4:12]` only at length 12. |
| LegacyCaniPy.LabelsOnlyForCurrent | utils/canipy.py:264-314 | Codes D1–D5 change only labels, and only when `p1 == ch_num` and the flag byte is 1. |
| LegacyCaniPy.ProgramSplit | utils/canipy.py:289-298 | Code D3 splits `p[3:]` into artist and title with nothing lost. |
| LegacyCaniPy.IdleFrameCounted | utils/canipy.py:374-377 | Code F2 increments `direct_idleframes` by exactly 1. |
| LegacyCaniPy.ErrorReportReads | utils/canipy.py:378-396 | A 2-byte FF report raises `IndexError` exactly on the branches that read byte 2, and changes nothing. |
| LegacyCaniPy.ProgramLengthOnlyReads | utils/canipy.py:315-325 | Code D6 never changes the session. It raises `IndexError` below 4 bytes, at 4 bytes unless `p3` is 1, below 7 bytes when `p3` is 1, and below 9 bytes when `p4` is 1; otherwise it succeeds. On every D6 report its state and result equal the newer dispatcher's. |
| LegacyCaniPy.PrintOnlyCodes | utils/canipy.py:180-259 | Codes 8B, 93 and D0 never change the session; they raise `IndexError` exactly when byte 3 is missing. |
| LegacyCaniPy.PowerPrintsOnly | utils/canipy.py:176-222 | Codes below A0 never lose a sent frame or consume input. |
| LegacyCaniPy.InfoPrintsOnly | utils/canipy.py:225-258 | Codes A0..D0 never lose a sent frame or consume input. |
| LegacyCaniPy.LabelPrintsOnly | utils/canipy.py:264-325 | Codes D1..DF never lose a sent frame or consume input. |
| LegacyCaniPy.StatusPrintsOnly | utils/canipy.py:341-398 | Codes from E0 never lose a sent frame or consume input. |
| LegacyCaniPy.RxResponsePrintsOnly | utils/canipy.py:164-398 | `rx_response` never loses a sent frame, never consumes input and records no notices. |
| LegacyCaniPy.Responder.RxResponse | utils/canipy.py:164-398 | `rx_response` changes the session and returns exactly as `RxResponseStep` specifies. |
| LegacyCaniPy.Responder.Tune | utils/canipy.py:183-210 | As `OnTune` specifies (see `TuneRefused`, `TuneStoresAndRequests`). |
| LegacyCaniPy.Responder.Labels | utils/canipy.py:264-314 | As `LabelResponse` specifies (see `LabelsOnlyForCurrent`). |
| LegacyCaniPy.Responder.ProgramLength | utils/canipy.py:315-325 | As `OnProgramLength` specifies; `LegacyCaniPy.ProgramLengthOnlyReads` states what that is. |
| Prototype.Tx | canipy/canipy.py:14-17 | `pcr_tx` appends `5A A5 ++ be16(len) ++ payload ++ ED ED`, or raises `OverflowError` for 65536 bytes or more and writes nothing. |
| Prototype.TxChecked | canipy/canipy.py:27-52 | An argument outside 0..255 raises `ValueError` before anything is written. |
| Prototype.TunePayload | canipy/canipy.py:27-30 | `change_channel(ch, data)` sends `10 (01 if data else 02) ch 00 00 01`. |
| Prototype.TunePayloadIsChangeChannel | testbed/testbed.py:27-30 | The prototype layout is the newer `change_channel` layout with `is_sid` false and program type 0, and decodes back to it. |
| Prototype.PrototypePayloads | canipy/canipy.py:19-72 | The defaults and layouts: `00 10 10 18 01`, `01 pwr_sav`, `25 08 ch 00`, `22 ch`, `31`, `43`, `13 m`, `4A 43`, `4A 44`. |
| Prototype.PowerUpDefaultsDiffer | testbed/testbed.py:19-21 | The prototype `power_up` default differs from the newer one only in the title label size (0x18 against 0x24). |
| Prototype.DirectEnableFrames | canipy/canipy.py:84-98 | `direct_enable` writes the three frames for `74 00 01`, `74 02 01 01`, `74 0B 00`, byte for byte. |
| Prototype.DirectEnableMatchesNewer | testbed/testbed.py:77-88 | Those three frames deframe to the newer `enable` commands. |
| Prototype.TxRoundTrip | testbed/testbed.py:14-17 | The frame `pcr_tx` writes deframes back to the payload. |
| Prototype.StripChars | testbed/testbed.py:94 | `strip()` leaves no whitespace at either end. |
| Prototype.GetOption | testbed/testbed.py:93-100 | The result is -1 or a value in 0..255 read from an all-digit stripped line. |
| Prototype.DigitsValueNonNegative | testbed/testbed.py:95-96 | A digit string has a non-negative value. |
| Prototype.GetOptionDigits | testbed/testbed.py:95-100 | An all-digit line gives its value when below 256, and -1 otherwise. |
| Prototype.GetOptionReadsDecimal | testbed/testbed.py:93-100 | Any n in 0..255 written in decimal, with blanks around it, is read back as n. |
| Prototype.GetOptionRefusesNonDigits | testbed/testbed.py:95-100 | A stripped line containing a non-digit gives -1. |
| Prototype.PcrDevice.constructor | testbed/testbed.py:5-12 | Nothing has been sent yet. |
| Prototype.PcrDevice.PcrTx | testbed/testbed.py:14-17 | The sent log and result are as `Tx` specifies. |
| Prototype.PcrDevice.PowerUp | canipy/canipy.py:19-21 | Range check, then transmits the `power_up` layout. |
| Prototype.PcrDevice.PowerDown | canipy/canipy.py:23-25 | Transmits `01 pwr_sav`. |
| Prototype.PcrDevice.ChangeChannel | canipy/canipy.py:27-31 | Range check, then transmits `TunePayload`. |
| Prototype.PcrDevice.ChannelInfo | canipy/canipy.py:33-43 | Range check, then transmits `25 08 ch 00`. |
| Prototype.PcrDevice.AudioInfo | canipy/canipy.py:45-52 | Range check, then transmits `22 ch`. |
| Prototype.PcrDevice.RadioId | canipy/canipy.py:54-56 | Transmits `31`. |
| Prototype.PcrDevice.SignalInfo | canipy/canipy.py:58-60 | Transmits `43`. |
| Prototype.PcrDevice.SetMute | testbed/testbed.py:58-60 | Transmits `13 m`. |
| Prototype.PcrDevice.PingRadio | testbed/testbed.py:62-65 | Transmits `4A 43`. |
| Prototype.PcrDevice.GetFirmver | testbed/testbed.py:67-69 | Transmits `4A 44`. |
| Prototype.PcrDevice.DirectEnable | testbed/testbed.py:77-88 | Appends exactly the three `DirectEnableFrames`, in order. |

## Findings

| source | as written | input that shows it | evidently intended | confidence | as-written member | corrected member |
|---|---|---|---|---|---|---|
| utils/canirx.py:69-72 | The title is stored from `payload[57:73]` but printed from `payload[42:74]`. | A 78-byte extended-info report for the current channel with status 01, title flag 1, a non-zero byte 56 and zeros from 57 to 73: the title is printed but stored empty. | Store the printed slice `payload[42:74]`, as utils/comm/canirx.py:160-162 does. | medium, not executed | LegacyRx.ExtInfoTitleNotPrinted | CaniRx.ExtInfoOnlyCurrent |
| utils/canirx.py:218 | The day is printed as `payload[4] & 0x0F`, dropping bit 4 of the packed day. | A clock report whose `p4` has bit 4 set (days 16 to 31) prints a day 16 too small. | Day `(p4 & 0F) + 16·((p4>>4) odd)`, as utils/comm/canirx.py:292 decodes it. | medium, not executed | LegacyRx.PrintedDayMatches | CaniRx.ClockFields |

## Left out

- Threading: `CaniThread.start`/`stop`, the daemon thread and `join` are left out. The cancel signal is a boolean input to the deframer and the read loop.
- Serial I/O: opening and closing the port, `set_serial_params` and `close` are left out. The port is a flag, an input byte sequence and a log of written frames. The input is finite. Where the source would block waiting for more bytes, an empty read ends the current attempt with an empty buffer. The read loop stops when the input is exhausted.
- Sleeps and timing: the delays in `enable` and `direct_enable` are left out; only the order of the frames is modelled.
- Floating point: the bit-error percentage, the C/N ratio and the program-length rounding are only printed, so they are left out.
- Display output is recorded only as the notices of `infoprint`, `warnprint`, `errorprint` and the length, line-level, invalid-radio-ID and unknown-code log lines. Their text is not modelled except where a property depends on it. The older snapshot uses `print`, which changes no state, so it records nothing.
- Text decoding: labels are kept as byte strings. `decode('utf-8')` and its `UnicodeDecodeError` are left out. `strip()` is modelled on single bytes with Python's whitespace set for latin-1.
- `CaniRx.WeekdayKey` and the weekday labels are display-only. `sat_datetime` is a tuple of integers, stored only when it forms a valid date-time.
- The older `parse_clock` and `parse_firminf` (utils/canirx.py:186-264) only print. They change no session state, so their only member is the printed day `LegacyRx.PrintedDay`.
- `wx.parse_data`, `wx.set_datachan`, `reset_display` and the `gui`, `data_logging` and `clock_logging` flags are not part of this model's sources. `reset_display` is an abstract reset of the displayed fields (`Session.DisplayDefaults`). `gui` is a session flag. Data frames (EA D0) are passed on without any state change.
- `thread_read` hands buffers to `rx.conductor`, which is not part of this model's sources; it is modelled as the dispatcher `CaniConductor.go`.
- The "Unexpected header size" branch of `thread_buffer` is unreachable once the header loop has ended, so it is not modelled.
- `CaniTX.send` reads `self.header` and `self.tail`, which its constructor never sets. The constants `5A A5` and `ED ED` of utils/canipy.py:77-78 are used.
- The older `rx_response` calls `tx.channel_info`; utils/canitx.py is not part of this model. The layout `25 08 ch 00` of the prototypes is assumed.
- `crash_override` (interactive input), the menus, the UI modules and `mode_override` are left out.
- Prototype.GetOption: only Python's ASCII and latin-1 whitespace and the digits 0-9 are modelled. Other Unicode digits and spaces that `str.isdigit` and `str.strip` accept are not.
