# smart-power-meter core, modelled in Dafny

This project models the part of the smart-power-meter program that talks to
a low-voltage smart electricity meter over Wi-SUN Route B through a BP35A1
module:

- `echonet.js` — ECHONET Lite object identities (EOJ) and their
  `equals`; the format-1 frame (`Frame`): its constructor, the
  `properties` setter, `addProperty`, `toBuffer`, `Frame.from`,
  `Frame.create`, the `PRESET` read requests and `parseProperty`. These
  live in `echonet.dfy`, module `Echonet`.
- `BP35A1.js` — the adapter session: `start`, `send`, `sendEchonet`
  and `dispatch`, which reacts to each line the module sends back. These
  live in `adapter.dfy`, module `Adapter`.
- `utils.js` — `toHex` and `strToBuffer`, in `utils.dfy`, module
  `Utils`.

`jsstring.dfy` (module `JsString`) defines the JavaScript string operations
the session relies on (`split` on one character, `join` and `trim`).
`wrappers.dfy` holds `Option` and `Result`.

The model keeps the source's shapes:

- A `Frame` is a class. Its fields are updated in place by the setter and
  `addProperty`.
- `toBuffer` fills a fresh array through a running index.
- `Frame.from` walks the input with a running index and appends each triple
  with `addProperty`.
- `BP35A1` is a class whose methods update `_state`, `_PAN`, `_address` and
  `_isConnected`. It keeps a log of every port write and of every emitted
  event.

Each of these methods is proved against a pure function on values:

- `Encode`/`Decode` for the frame codec;
- `Interpret` for `parseProperty`;
- `React` and its per-branch functions for `dispatch`.

The properties (round trips, layout, invariants of the session) are proved
as lemmas about those functions.

`Run` applies `React` to a sequence of lines, collecting the writes and the
events. `Adapter.HappyPath` uses it to state the whole connection sequence,
from `start` to the `connect` event.

Modelling choices:

- Writes are synchronous. Each session method takes the outcome of its
  port write as a `writeOk` argument, and `_state` follows a write only
  when it succeeded, as in the write callback of `send` and `sendEchonet`.
- `process.env.PASSWORD`, `ID` and `DURATION` are a `Config` value.
- A thrown error is a `Failure` of the method's `Result`.
- An absent `parameters` argument of `send` is the empty string. JavaScript
  treats both as falsy.

## Model

| member | source | states |
|---|---|---|
| Echonet.Equals | echonet.js:35-49 | `equals` is true exactly when class group, class and instance codes all agree |
| Echonet.InstanceCodeDistinguishes | echonet.js:44-46 | identities differing only in the instance code are unequal; `equals` is reflexive and symmetric there |
| Echonet.Frame.constructor | echonet.js:153-164 | a new frame has EOJs 00 00 00, ESV 0, OPC 0 and no properties |
| Echonet.Frame.SetProperties | echonet.js:169-172 | the setter replaces the list and sets OPC to its length; nothing else changes |
| Echonet.Frame.AddProperty | echonet.js:180-183 | appends one (EPC, PDC, EDT) triple at the end and OPC grows by one |
| Echonet.Frame.Create | echonet.js:269-279 | a fresh frame with exactly the given SEOJ, DEOJ, ESV and properties, OPC their count |
| Echonet.PresetBytes | echonet.js:131-151 | each preset read request is `10 81 0000 05FF01 028801 62 01 EPC 00` and parses back to itself |
| Echonet.Frame.ToBuffer | echonet.js:189-223 | returns a fresh buffer whose contents are exactly `Encode` of the frame |
| Echonet.Frame.BufferLength | echonet.js:190-194 | the sizing loop yields 12 + Σ (2 + PDC) |
| Echonet.Frame.WriteHeader | echonet.js:198-210 | the first twelve stores are EHD1, EHD2, TID, SEOJ, DEOJ, ESV and OPC modulo 256 |
| Echonet.Frame.WriteProperty | echonet.js:213-219 | one iteration of the property loop stores EPC, PDC and PDC payload bytes and advances the index by 2 + PDC |
| Echonet.EncodeLength | echonet.js:190-196 | the buffer is exactly 12 + Σ (2 + PDC) bytes long |
| Echonet.EncodeLayout | echonet.js:198-220 | header bytes in order, then property j at offset 12 + Σ over earlier properties, as EPC, PDC, then EDT bytes with 0 past the end of EDT |
| Echonet.EncodedPropertyAt | echonet.js:212-220 | property j occupies bytes at .. at + 2 + PDC of the encoding, byte by byte |
| Echonet.Frame.From | echonet.js:239-267 | succeeds exactly when `Decode` does, and then yields a fresh valid frame holding the decoded SEOJ, DEOJ, ESV and properties |
| Echonet.Frame.ReadProperties | echonet.js:252-260 | the loop appends the triples `DecodeProperties` reads, in order, fails exactly when it does, and returns the index just past the last triple, the one `DecodeProperties` reaches |
| Echonet.DecodeEncode | echonet.js:189-267 | round trip: parsing the bytes of a well-formed frame gives back SEOJ, DEOJ, ESV and every property in order |
| Echonet.DecodeIgnoresTrailingBytes | echonet.js:250-266 | bytes after the last declared property are ignored |
| Echonet.DecodeIgnoresHeaderBytes | echonet.js:244-246 | EHD1, EHD2 and TID play no part in parsing |
| Echonet.EncodeDecode | echonet.js:239-267 | every successful parse reads OPC well-formed triples, and re-encoding reproduces the input up to the last property, with EHD1 EHD2 TID normalised to 10 81 0000 |
| Echonet.DecodeRejectsTruncated | echonet.js:252-258 | a well-formed frame's encoding cut short anywhere does not parse |
| Echonet.DecodeEncodedAt | echonet.js:252-260 | the property loop reads back triples laid out one after another |
| Echonet.DecodePropertiesRead | echonet.js:252-260 | a successful property loop read exactly OPC triples laid out from the start position, ending 2 + PDC per triple later |
| Echonet.ParseProperty | echonet.js:281-422 | the method's result is `Interpret(eoj, property)`; its D5 loop builds the instance list, reading `undefined` codes past the end of EDT without failing |
| Echonet.InstantaneousPowerValue | echonet.js:298-307 | EPC E7 on the meter yields the big-endian signed 32-bit value of EDT[0..4) in W |
| Echonet.InstantaneousPowerExamples | echonet.js:298-307 | 00 00 01 F4 reads as 500 W and FF FF FF FF as -1 W |
| Echonet.CumulativeEnergyValue | echonet.js:311-351 | EPC EA/EB on the meter yields year, month, day, hour, minute, second and the unsigned 32-bit reading from EDT[0..11) |
| Echonet.InstanceListValue | echonet.js:386-397 | EPC D5 on a node profile never fails and yields EDT[0] entries (none for an empty EDT); the i-th entry's codes are EDT[3i+1], EDT[3i+2], EDT[3i+3], each `undefined` exactly when EDT is too short to hold it |
| Echonet.InstanceListExamples | echonet.js:386-397 | the payload 01 gives one entry with three `undefined` codes; 01 02 88 01 gives the smart meter's identity |
| Echonet.InterpretOutcome | echonet.js:284-421 | an unknown EPC on the meter or a node profile throws (both directions); any other object yields null (both directions); only an E7, EA or EB reading shorter than its DataView reads fails for its length (both directions) |
| Utils.ToHex | utils.js:3 | the result has exactly `digit` characters (the whole hex form for 0) and no lower-case letter |
| Utils.ToHexDigits | utils.js:3 | for d ≥ 1 the result is exactly d upper-case hex digits whose value is n mod 16^d |
| Utils.ToHexRoundTrip | utils.js:3 | reading `toHex(n, d)` back as hex gives n whenever n < 16^d |
| Utils.ToHexPadding | utils.js:3 | a hex form shorter than d is padded on the left with '0' |
| Utils.ToHexZeroWidth | utils.js:3 | `toHex(n, 0)` keeps the whole hex form, because `slice(-0)` slices from 0 |
| Utils.StrToBuffer | utils.js:5-13 | returns a fresh buffer of length ⌊\|s\|/2⌋ whose contents are `HexBytes(s)` |
| Utils.HexBytes | utils.js:6 | the buffer has ⌊\|s\|/2⌋ bytes |
| Utils.HexBytesAt | utils.js:7-10 | byte k is `parseInt` of characters 2k and 2k+1, stored into a byte slot |
| Utils.ParseIntOfPair | utils.js:9 | `parseInt` of two hex digits is their value, below 256 |
| Utils.PairValue | utils.js:8-9 | for a pair of hex digits the stored byte is their value |
| Utils.StrToBufferOfHex | utils.js:3-13 | `strToBuffer` of the per-byte `toHex(b, 2)` text of any bytes gives those bytes back |
| JsString.JoinSplit | BP35A1.js:84 | splitting a line on ' ' loses nothing: joining the fields with ' ' restores it |
| JsString.SplitJoin | BP35A1.js:68 | fields free of ' ' joined with ' ' split back into the same fields |
| JsString.TrimStartRemovesWhitespace | BP35A1.js:255 | `trim` removes a leading run of white space and only that |
| JsString.TrimEndRemovesWhitespace | BP35A1.js:255 | `trim` removes a trailing run of white space and only that |
| Adapter.BP35A1.constructor | BP35A1.js:9-16 | the session starts IDLE with no PAN descriptor, no address, not connected, nothing written |
| Adapter.BP35A1.Start | BP35A1.js:23-26 | writes `SKSREG SFE 0` CR LF; on success `_state` becomes SKSREG_SFE |
| Adapter.BP35A1.Send | BP35A1.js:29-57 | WOPT and ROPT fail before writing; any other command writes the command, a space and the parameters if any, then CR LF, and a successful write sets `_state` (SKSREG_<register> for SKSREG) |
| Adapter.RegisterState | BP35A1.js:46-49 | `SKSREG <register> <value>` moves `_state` to `SKSREG_<register>` |
| Adapter.BP35A1.SendEchonet | BP35A1.js:60-81 | writes the SKSENDTO header followed by exactly the frame's bytes; a successful write sets `_state` to SKSENDTO |
| Adapter.SendToFields | BP35A1.js:61-68 | the header's fields are SKSENDTO, handle 1, the address, port 0E1A, security 1, the four-digit length, then the data; the length reads back as the frame length when below 0x10000 |
| Adapter.SendEchonetDelivers | BP35A1.js:60-80 | the written header has seven fields naming SKSENDTO, `_address` and port 0E1A; its length field reads back as the number of bytes that follow, and those bytes parse back to the frame; only `_state` may change, to SKSENDTO after a successful write |
| Adapter.BP35A1.Dispatch | BP35A1.js:83-275 | each line has exactly the effect `React` gives it: the new session, at most one write appended to the write log, at most one event appended to the event log |
| Adapter.PanDescriptorEvent | BP35A1.js:104-107 | an EPANDESC line only moves `_state` to EPANDESC: nothing written, nothing emitted |
| Adapter.Routing | BP35A1.js:84-87 | a line whose first field is OK goes to the OK branch, EVENT to the EVENT branch |
| Adapter.BP35A1.OnEvent | BP35A1.js:109-149 | the EVENT branch acts as `ReactEvent` |
| Adapter.BP35A1.OnUdp | BP35A1.js:151-184 | the ERXUDP branch acts as `ReactUdp`; its loop sums the first eight field lengths plus separators |
| Adapter.BP35A1.OnOk | BP35A1.js:186-233 | the OK branch acts as `ReactOk` |
| Adapter.BP35A1.OnOther | BP35A1.js:251-273 | the default branch acts as `ReactOther` |
| Adapter.InertLines | BP35A1.js:89-249 | command echoes, EVER, FAIL, EVENT codes other than 22 and 25, and ERXUDP from any port but 0E1A leave the session unchanged, write nothing and emit nothing |
| Adapter.ScanRetry | BP35A1.js:118-128 | EVENT 22 without a PAN descriptor re-sends the very SKSCAN that OK after SKSETRBID sends; with one, it sends SKLL64 with the PAN address |
| Adapter.ConnectOnEvent25 | BP35A1.js:131-137 | `connect` is emitted exactly for EVENT 25, which sets `_isConnected`, returns to IDLE and writes nothing |
| Adapter.EchonetFrameLine | BP35A1.js:157-178 | ERXUDP from 0E1A parses the frame from everything after the eighth field, spaces included, emits it, and returns to IDLE exactly when the sender is the smart meter; a short payload is rejected |
| Adapter.PayloadOffsetLocates | BP35A1.js:160-164 | the summed field lengths plus separators point at the start of field n, so the rest of the line is the remaining fields joined by spaces |
| Adapter.UnknownPortThrows | BP35A1.js:180-182 | as written, an ERXUDP line from a port other than 02CC and 0E1A throws; the model's branch leaves the session unchanged |
| Adapter.OkAdvancesHandshake | BP35A1.js:186-214 | OK in each step of SKSREG_SFE → SKVER → SKSETPWD → SKSETRBID → SKSCAN writes the next step's full command line (SKVER alone, `SKSETPWD C <password>`, `SKSETRBID <id>`, `SKSCAN 2 FFFFFFFF <duration>`) and moves `_state` there |
| Adapter.OkChangesOnlyState | BP35A1.js:186-233 | OK never touches `_PAN`, `_address` or `_isConnected` and emits nothing; in SKSCAN, SKJOIN, SKSENDTO and unknown states it writes nothing |
| Adapter.OkRegisters | BP35A1.js:212-223 | OK after S2 sets S3 to the PAN ID; OK after S3 sends SKJOIN to the known address, or SKLL64 to the PAN address when there is none |
| Adapter.PanDescriptorLine | BP35A1.js:253-260 | in EPANDESC a `key:value` line stores the value under the key, creating `_PAN` if needed, and keeps every other key |
| Adapter.LinkLocalAddressLine | BP35A1.js:262-267 | in SKLL64 the first field becomes `_address` and S2 is set to the PAN channel; without a PAN descriptor the line fails and nothing changes |
| Adapter.EventBranch | BP35A1.js:109-149 | EVENT: the write outcome shows only in `_state`, `_PAN` keeps its keys, and `connect` comes exactly from code 25 |
| Adapter.UdpBranch | BP35A1.js:151-184 | ERXUDP writes nothing, keeps `_PAN` and `_isConnected`, and never emits `connect` |
| Adapter.WriteBranch | BP35A1.js:38-53 | a write outcome only decides `_state` |
| Adapter.OkBranch | BP35A1.js:186-233 | OK: the write outcome shows only in `_state`; nothing is lost; no `connect` |
| Adapter.OtherBranch | BP35A1.js:251-273 | default branch: as for OK; a PAN attribute only adds or overwrites a key |
| Adapter.WriteOutcomeOnlyAffectsState | BP35A1.js:38-56 | for every line, a failed write produces the same command and event as a successful one and differs in `_state` at most |
| Adapter.DispatchKeeps | BP35A1.js:83-275 | no line resets `_PAN` or removes a key from it, and `_isConnected` never returns to false |
| Adapter.RunAppend | BP35A1.js:83-87 | `dispatch` over lines `a + b` is `dispatch` over `a`, then over `b` from the session `a` left; the writes and events are those of `a` followed by those of `b` |
| Adapter.StartWrite | BP35A1.js:23-26 | `start` from the constructed session writes `SKSREG SFE 0` and moves `_state` to SKSREG_SFE |
| Adapter.OkLine | BP35A1.js:186-210 | OK in SKSREG_SFE, SKVER, SKSETPWD or SKSETRBID writes the next command of the sequence, with its parameters, and moves `_state` to it; nothing else changes |
| Adapter.OkAfterScan | BP35A1.js:205-206 | OK in SKSCAN leaves the session as it is, writes nothing and emits nothing |
| Adapter.HandshakeRun | BP35A1.js:186-210 | from SKSREG_SFE five OK lines write exactly SKVER, `SKSETPWD C <password>`, `SKSETRBID <id>` and `SKSCAN 2 FFFFFFFF <duration>`, in that order, emit nothing, and leave `_state` in SKSCAN |
| Adapter.PanDescriptorStep | BP35A1.js:104-107 | EPANDESC moves `_state` to EPANDESC and changes nothing else |
| Adapter.AttributeStep | BP35A1.js:253-260 | in EPANDESC a `key:value` line stores the value under the key in `_PAN` (starting from an empty `_PAN` when there is none) and changes nothing else |
| Adapter.ScanEndStep | BP35A1.js:118-128 | EVENT 22 with a PAN descriptor writes `SKLL64 <Addr>` and moves `_state` to SKLL64 |
| Adapter.AddressStep | BP35A1.js:262-267 | in SKLL64 the answer's first field becomes `_address`, `SKSREG S2 <Channel>` is written and `_state` becomes SKSREG_S2 |
| Adapter.RegisterSteps | BP35A1.js:212-227 | OK in SKSREG_S2 writes `SKSREG S3 <Pan ID>`; in SKSREG_S3 with a known address, `SKJOIN <address>`; in SKJOIN nothing |
| Adapter.ConnectStep | BP35A1.js:131-137 | EVENT 25 sets `_isConnected`, returns to IDLE and emits `connect`, writing nothing |
| Adapter.ScanRun | BP35A1.js:104-260 | EPANDESC, the Channel, Pan ID and Addr lines and EVENT 22 build `_PAN` from exactly those three attributes and write only `SKLL64 <Addr>` |
| Adapter.JoinRun | BP35A1.js:131-267 | from SKLL64, the address answer, three OKs and EVENT 25 write `SKSREG S2 <Channel>`, `SKSREG S3 <Pan ID>` and `SKJOIN <address>` in order, emit exactly one `connect`, and end connected in IDLE with the address recorded |
| Adapter.HappyPath | BP35A1.js:23-275 | after `start`, the fifteen lines of a successful connection leave the session connected in IDLE with the PAN's Channel, Pan ID and Addr and the link-local address; the writes are exactly SKVER, SKSETPWD, SKSETRBID, SKSCAN, SKLL64, SKSREG S2, SKSREG S3 and SKJOIN in that order, and exactly one `connect` is emitted |

## Left out

- `index.js` is not part of this model: serial-port and environment setup, the polling timer, console output and the floating-point conversion of readings to kW and kWh.
- `toString` of `EchonetObject` and `Frame`, `esvToString` and `getProperty` are left out. They only format or index values for logging.
- Console logging, `EventEmitter` plumbing and the asynchronous write callbacks are left out. A write's outcome is the `writeOk` argument, and emitted events are a log of `Signal` values.
- Echonet.CumulativeEnergyValue: the reading keeps the raw date and time fields. The date that `moment` builds from them with the fixed +09:00 offset is not modelled, nor is its parsing and validity checking.
- Echonet.Frame.From: a buffer shorter than the lengths it declares is rejected with `Truncated`. JavaScript instead builds a frame from what it finds. Header fields past the end are `undefined`, and a missing OPC reads no triple. A triple past the end gets `undefined` EPC and PDC. An EDT slice running past the end is cut short. After a missing PDC the index becomes NaN, so every later read is `undefined` and every later EDT slice is empty.
- Echonet.Frame.From: the OPC-mismatch message cannot fire, because `addProperty` keeps OPC equal to the property count. The model has no branch for it.
- Adapter.EchonetFrameLine: an ERXUDP payload that does not parse becomes `MalformedFrame`. For a payload of fewer than 7 bytes JavaScript throws as well, a TypeError from `utils.toHex(undefined, 2)` when it logs `frame.SEOJ.toString()`. A longer payload that does not parse is emitted in JavaScript as a frame built from undefined bytes; the model does not emit it. This follows from the `Frame.from` choice above.
- Adapter.BP35A1.OnUdp: an ERXUDP line from a port other than 02CC and 0E1A is treated as log-only, which is what the branch intends. The code as written throws; see Findings.
- Echonet.Frame.Create: the frame stores the list by value. The source stores the caller's array by reference, so the caller's later pushes show through. Aliasing is not modelled.
- Frame data is modelled as `seq<uint8>`: `Frame.from` takes bytes rather than a Node `Buffer`, and EDT values are bytes. An EDT given as `null` (the presets, whose PDC is 0) is the empty sequence.
- Echonet.Frame.ToBuffer: a property whose EDT is `null` and whose PDC is above 0 makes JavaScript throw a TypeError at `null[k]`. The model has no `null` EDT and pads with zeros, as `toBuffer` does for `undefined` elements of a short EDT. No such property occurs in the source: the presets have PDC 0.
- Utils.ToHex: only non-negative numbers are modelled. The modelled call passes a buffer length. The other calls, in `EchonetObject.toString`, which is left out, pass object codes, which are bytes.
- Utils.StrToBuffer: characters are Unicode code points. UTF-16 surrogate pairs are not distinguished.
- Adapter.BP35A1.Send: `parameters` is a string, and an absent argument is the empty string. The written line is the same either way. For SKSREG they differ: JavaScript throws a TypeError at `parameters.split`, while the model moves `_state` to `SKSREG_`. No call sends SKSREG without parameters.
- Adapter.Run: a run of lines assumes that every write succeeds. The effect of a failed write is stated one line at a time, by Adapter.WriteOutcomeOnlyAffectsState.
- Adapter.SendToFields: the address is assumed to contain no space. A Link-local address (or `null`) never contains one.

## Findings

| source | as written | input that shows it | evidently intended | confidence | as-written member | corrected member |
|---|---|---|---|---|---|---|
| BP35A1.js:180-182 | the default case of the ERXUDP port switch logs `${RPORT}`, a name nothing declares, so `dispatch` throws a ReferenceError | any ERXUDP line whose fourth field, the source port, is neither 02CC nor 0E1A, such as `ERXUDP <sender> <dest> 0050 0050 <mac> 0 0002 ABCD` | log the unknown port and carry on, as the 02CC case does | not executed | Adapter.UnknownPortThrows | Adapter.InertLines |
