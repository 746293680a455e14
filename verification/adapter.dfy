/**
 * The BP35A1 adapter session of BP35A1.js: the SKSTACK-IP command sequence
 * that brings up a Route-B link to the smart meter (echo off, version,
 * password, Route-B ID, active scan, link-local address, S2/S3 registers,
 * join), the SKSENDTO transmission of ECHONET Lite frames on UDP port 0x0E1A,
 * and `dispatch`, which reacts to each line the module sends back.
 *
 * A port write is synchronous here: its outcome is the `writeOk` argument,
 * and `_state` follows a write only when it succeeded, as in the write
 * callback. The environment values PASSWORD, ID and DURATION are a `Config`.
 */
module Adapter {
  import opened Wrappers
  import opened JsString
  import opened Utils
  import opened Echonet

  /** `process.env.PASSWORD`, `process.env.ID` and `process.env.DURATION` as the command templates render them. */
  datatype Config = Config(password: string, id: string, duration: string)

  /** One write to the serial port. */
  datatype Command =
    | Line(text: string)                        // `send`: a command line ending in CR LF
    | SendTo(header: string, data: seq<uint8>)  // `sendEchonet`: the SKSENDTO header text, then the frame bytes

  /** The events the adapter emits. */
  datatype Signal = Connect | EchonetFrame(frame: FrameData)

  /** The ways a call ends without its effect. */
  datatype SessionError =
    | UnsupportedCommand  // `send` throws for WOPT and ROPT before writing
    | NoPanDescriptor     // a property of `_PAN` is read while `_PAN` is still null
    | MissingFields       // an ERXUDP line from port 0E1A has fewer than eight fields
    | MalformedFrame      // the ERXUDP payload is shorter than the frame it declares
    | UndefinedName       // a ReferenceError: the code names a variable nothing declares

  /** `_state`, `_PAN`, `_address` and `_isConnected`. */
  datatype Session = Session(state: string, pan: Option<map<string, string>>, address: Option<string>, isConnected: bool)

  /** The effect of one call: the new session, at most one port write, at most one emitted event. */
  datatype Reaction = Reaction(next: Session, command: Option<Command>, signal: Option<Signal>)

  /** A freshly constructed adapter. */
  const Initial := Session("IDLE", None, None, false)

  /** The UDP port of ECHONET Lite, 0x0E1A = 3610, as the module prints it. */
  const EchonetPort := "0E1A"

  /** The source UDP handle and the encryption option of every SKSENDTO. */
  const Handle := "1"
  const Security := "1"

  /** The command echoes `dispatch` ignores. */
  const EchoedCommands: set<string> := {"SKVER", "SKSETPWD", "SKSETRBID", "SKSCAN", "SKLL64", "SKSREG", "SKJOIN", "SKSENDTO"}

  function Emitted<T>(o: Option<T>): seq<T>
  {
    if o.Some? then [o.value] else []
  }

  // ================================================================ send

  /** `send` throws for these two before writing anything. */
  predicate Unsupported(command: string)
  {
    command == "WOPT" || command == "ROPT"
  }

  /** The line `send` writes: the command, then a space and the parameters when there are any, then CR LF. */
  function CommandLine(command: string, parameters: string): string
  {
    command + (if parameters != "" then " " + parameters else "") + "\r\n"
  }

  /** `_state` after a successful write: `SKSREG_<register>` for SKSREG, the command name otherwise. */
  function StateAfterWrite(command: string, parameters: string): string
  {
    if command == "SKSREG" then "SKSREG_" + Split(parameters, ' ')[0] else command
  }

  /** `send` of a supported command: one line is written; `_state` follows only a successful write. */
  function Write(s: Session, command: string, parameters: string, writeOk: bool): Reaction
  {
    Reaction(s.(state := if writeOk then StateAfterWrite(command, parameters) else s.state),
             Some(Line(CommandLine(command, parameters))), None)
  }

  /** `send`. */
  function SendStep(s: Session, command: string, parameters: string, writeOk: bool): Result<Reaction, SessionError>
  {
    if Unsupported(command) then Failure(UnsupportedCommand) else Success(Write(s, command, parameters, writeOk))
  }

  /** A line that is only logged. */
  function Inert(s: Session): Reaction
  {
    Reaction(s, None, None)
  }

  // ================================================================ sendEchonet

  /** `${this._address}`: null renders as "null". */
  function AddressText(address: Option<string>): string
  {
    if address.Some? then address.value else "null"
  }

  /**
   * The text `sendEchonet` puts before the frame bytes: SKSENDTO, handle 1,
   * the address, port 0E1A, security 1 and the length, each followed by one
   * space (the empty last field leaves the trailing space).
   */
  function SendToHeader(address: Option<string>, length: nat): string
  {
    Join(["SKSENDTO", Handle, AddressText(address), EchonetPort, Security, ToHex(length, 4), ""], ' ')
  }

  /** `sendEchonet` of a frame whose `toBuffer` is `data`. */
  function SendEchonetStep(s: Session, data: seq<uint8>, writeOk: bool): Reaction
  {
    Reaction(s.(state := if writeOk then "SKSENDTO" else s.state),
             Some(SendTo(SendToHeader(s.address, |data|), data)), None)
  }

  // ================================================================ dispatch

  /** `response[i] === value`; a missing field is `undefined`, which matches no case. */
  predicate FieldIs(fields: seq<string>, i: nat, value: string)
  {
    i < |fields| && fields[i] == value
  }

  /** `_PAN[key]` in a template literal: a key the descriptor did not carry renders as "undefined". */
  function Lookup(pan: map<string, string>, key: string): string
  {
    if key in pan then pan[key] else "undefined"
  }

  /** The active-scan parameters: mode 2, channel mask FFFFFFFF, the configured duration. */
  function ScanParameters(cfg: Config): string
  {
    "2 FFFFFFFF " + cfg.duration
  }

  /** Σ_{i<n} (|fields[i]| + 1): where the text after the n-th space starts. */
  function PayloadOffset(fields: seq<string>, n: nat): nat
    requires n <= |fields|
  {
    if n == 0 then 0 else PayloadOffset(fields, n - 1) + |fields[n - 1]| + 1
  }

  /** `data.slice(pos)`: empty once `pos` is past the end. */
  function SliceFrom(s: string, pos: nat): string
  {
    if pos <= |s| then s[pos..] else ""
  }

  /** `Buffer.from(text, 'binary')`: the low byte of each character code. */
  function BinaryBytes(text: string): seq<uint8>
  {
    seq(|text|, i requires 0 <= i < |text| => text[i] as int % 256)
  }

  /** The bytes of an ERXUDP line after its eight header fields. */
  function UdpPayload(line: string, fields: seq<string>): seq<uint8>
    requires |fields| >= 8
  {
    BinaryBytes(SliceFrom(line, PayloadOffset(fields, 8)))
  }

  /** `_PAN[k] = v` for an attribute line `k:v` of a PAN descriptor, creating `_PAN` on the first one. */
  function AddAttribute(pan: Option<map<string, string>>, line: string): map<string, string>
  {
    var attribute := Split(Trim(line), ':');
    var m := if pan.Some? then pan.value else map[];
    m[attribute[0] := if |attribute| > 1 then attribute[1] else "undefined"]
  }

  /** The EVENT branch: 22 ends an active scan, 25 completes PANA authentication, the rest are logged. */
  function ReactEvent(cfg: Config, s: Session, fields: seq<string>, writeOk: bool): Reaction
  {
    if FieldIs(fields, 1, "22") then
      if s.pan.None? then Write(s, "SKSCAN", ScanParameters(cfg), writeOk)
      else Write(s, "SKLL64", Lookup(s.pan.value, "Addr"), writeOk)
    else if FieldIs(fields, 1, "25") then
      Reaction(s.(isConnected := true, state := "IDLE"), None, Some(Connect))
    else Inert(s)
  }

  /** The ERXUDP branch: a datagram from port 0E1A carries an ECHONET Lite frame; others are logged. */
  function ReactUdp(s: Session, line: string, fields: seq<string>): Result<Reaction, SessionError>
  {
    if !FieldIs(fields, 3, EchonetPort) then Success(Inert(s))
    else if |fields| < 8 then Failure(MissingFields)
    else
      match Decode(UdpPayload(line, fields))
      case Failure(_) => Failure(MalformedFrame)
      case Success(f) =>
        Success(Reaction(if Equals(f.seoj, SmartMeter) then s.(state := "IDLE") else s, None, Some(EchonetFrame(f))))
  }

  /** The cases of the OK branch's switch on `_state`. */
  datatype OkCase = AfterVersion | AfterPassword | AfterRouteBId | AfterEchoOff | AfterS2 | AfterS3 | NoNextCommand

  /** Which case of the OK branch's switch `_state` selects; SKSCAN, SKJOIN, SKSENDTO and the rest write nothing. */
  function OkCaseOf(state: string): OkCase
  {
    if state == "SKVER" then AfterVersion
    else if state == "SKSETPWD" then AfterPassword
    else if state == "SKSETRBID" then AfterRouteBId
    else if state == "SKSREG_SFE" then AfterEchoOff
    else if state == "SKSREG_S2" then AfterS2
    else if state == "SKSREG_S3" then AfterS3
    else NoNextCommand
  }

  /** The OK branch: the next command of the connection sequence, chosen by `_state`. */
  function ReactOk(cfg: Config, s: Session, writeOk: bool): Result<Reaction, SessionError>
  {
    match OkCaseOf(s.state)
    case AfterVersion => Success(Write(s, "SKSETPWD", "C " + cfg.password, writeOk))
    case AfterPassword => Success(Write(s, "SKSETRBID", cfg.id, writeOk))
    case AfterRouteBId => Success(Write(s, "SKSCAN", ScanParameters(cfg), writeOk))
    case AfterEchoOff => Success(Write(s, "SKVER", "", writeOk))
    case AfterS2 =>
      if s.pan.None? then Failure(NoPanDescriptor)
      else Success(Write(s, "SKSREG", "S3 " + Lookup(s.pan.value, "Pan ID"), writeOk))
    case AfterS3 =>
      if s.address.Some? then Success(Write(s, "SKJOIN", s.address.value, writeOk))
      else if s.pan.None? then Failure(NoPanDescriptor)
      else Success(Write(s, "SKLL64", Lookup(s.pan.value, "Addr"), writeOk))
    case NoNextCommand => Success(Inert(s))
  }

  /** A line that is no keyword: a PAN descriptor attribute, or the answer to SKLL64. */
  function ReactOther(s: Session, line: string, head: string, writeOk: bool): Result<Reaction, SessionError>
  {
    if s.state == "EPANDESC" then Success(Inert(s.(pan := Some(AddAttribute(s.pan, line)))))
    else if s.state == "SKLL64" then
      if s.pan.None? then Failure(NoPanDescriptor)
      else Success(Write(s.(address := Some(head)), "SKSREG", "S2 " + Lookup(s.pan.value, "Channel"), writeOk))
    else Success(Inert(s))
  }

  /**
   * The ERXUDP branch as it is written: a datagram from port 02CC (PANA) is
   * logged, and the log line for any other port but 0E1A names `RPORT`,
   * which nothing declares, so evaluating it throws.
   */
  function ReactUdpAsWritten(s: Session, line: string, fields: seq<string>): Result<Reaction, SessionError>
  {
    if FieldIs(fields, 3, "02CC") then Success(Inert(s))
    else if !FieldIs(fields, 3, EchonetPort) then Failure(UndefinedName)
    else ReactUdp(s, line, fields)
  }

  /** The cases of `dispatch`'s outer switch. */
  datatype Keyword = Echo | Ever | PanDescriptor | Event | UdpReceived | Ok | Fail | NoKeyword

  /** Which case of the outer switch the first field of a line selects. */
  function Classify(head: string): Keyword
  {
    if head in EchoedCommands then Echo
    else if head == "EVER" then Ever
    else if head == "EPANDESC" then PanDescriptor
    else if head == "EVENT" then Event
    else if head == "ERXUDP" then UdpReceived
    else if head == "OK" then Ok
    else if head == "FAIL" then Fail
    else NoKeyword
  }

  /** `dispatch(line)`, keyed on the first space-separated field. */
  function React(cfg: Config, s: Session, line: string, writeOk: bool): Result<Reaction, SessionError>
  {
    var fields := Split(line, ' ');
    match Classify(fields[0])
    case Echo | Ever | Fail => Success(Inert(s))
    case PanDescriptor => Success(Inert(s.(state := "EPANDESC")))
    case Event => Success(ReactEvent(cfg, s, fields, writeOk))
    case UdpReceived => ReactUdp(s, line, fields)
    case Ok => ReactOk(cfg, s, writeOk)
    case NoKeyword => ReactOther(s, line, fields[0], writeOk)
  }

  // ================================================================ lemmas on send and sendEchonet

  /** `SKSREG <register> <value>` moves `_state` to `SKSREG_<register>` once written. */
  lemma RegisterState(register: string, value: string)
    requires ' ' !in register
    ensures StateAfterWrite("SKSREG", register + " " + value) == "SKSREG_" + register
  {
    SplitCons(register, ' ', value);
  }

  /**
   * The SKSENDTO header splits into the command, handle 1, the address, port
   * 0E1A, security 1 and the four-digit length, then an empty field: the
   * frame bytes follow the last space directly. The length field reads back
   * as the payload length whenever that fits in four hex digits.
   */
  lemma SendToFields(address: Option<string>, length: nat)
    requires ' ' !in AddressText(address)
    ensures Split(SendToHeader(address, length), ' ') ==
      ["SKSENDTO", Handle, AddressText(address), EchonetPort, Security, ToHex(length, 4), ""]
    ensures length < Pow16(4) ==> AllHex(ToHex(length, 4)) && HexValue(ToHex(length, 4)) == length
  {
    var n := ToHex(length, 4);
    ToHexDigits(length, 4);
    var pieces := ["SKSENDTO", Handle, AddressText(address), EchonetPort, Security, n, ""];
    assert forall p :: p in pieces ==> ' ' !in p;
    SplitJoin(pieces, ' ');
    if length < Pow16(4) {
      ToHexRoundTrip(length, 4);
    }
  }

  /**
   * What `sendEchonet` puts on the wire carries the frame: the header names
   * SKSENDTO and the session's address, its length field reads back as the
   * number of bytes that follow, and those bytes parse back to the frame.
   * Only `_state` may change, and only to SKSENDTO after a successful write.
   */
  lemma SendEchonetDelivers(s: Session, f: FrameData, writeOk: bool)
    requires WellFormed(f) && ' ' !in AddressText(s.address)
    ensures var x := SendEchonetStep(s, Encode(f), writeOk);
      x.command.Some? && x.command.value.SendTo? && x.signal.None? &&
      var fields := Split(x.command.value.header, ' '); var data := x.command.value.data;
      |fields| == 7 && fields[0] == "SKSENDTO" && fields[2] == AddressText(s.address) &&
      fields[3] == EchonetPort && fields[6] == "" &&
      (|data| < Pow16(4) ==> AllHex(fields[5]) && HexValue(fields[5]) == |data|) &&
      Decode(data) == Success(f) &&
      x.next.(state := s.state) == s && (writeOk ==> x.next.state == "SKSENDTO")
  {
    SendToFields(s.address, |Encode(f)|);
    DecodeEncode(f);
  }

  // ================================================================ lemmas on dispatch

  /** The steps of the connection sequence that `start` opens and each OK advances. */
  const Handshake := ["SKSREG_SFE", "SKVER", "SKSETPWD", "SKSETRBID", "SKSCAN"]

  /**
   * OK in step `i` of the connection sequence writes the command of step
   * `i + 1` with its parameters (none for SKVER, `C <password>` for SKSETPWD,
   * the Route B ID for SKSETRBID, `2 FFFFFFFF <duration>` for SKSCAN), and a
   * successful write moves `_state` there; nothing else changes.
   */
  lemma OkAdvancesHandshake(cfg: Config, s: Session, i: nat)
    requires i < 4 && s.state == Handshake[i]
    ensures ReactOk(cfg, s, true).Success?
    ensures var x := ReactOk(cfg, s, true).value; var step := Handshake[i + 1];
      x.next == s.(state := step) && x.signal.None? &&
      x.command == Some(Line(CommandLine(step, ["", "C " + cfg.password, cfg.id, ScanParameters(cfg)][i])))
  {
  }

  /**
   * OK only ever writes the next command and moves `_state`: `_PAN`,
   * `_address` and `_isConnected` stay, no event is emitted, a failed write
   * leaves the session as it was, and in SKSCAN, SKJOIN, SKSENDTO or any
   * other state nothing is written.
   */
  lemma OkChangesOnlyState(cfg: Config, s: Session, writeOk: bool)
    ensures var r := ReactOk(cfg, s, writeOk);
      (r.Failure? <==> s.pan.None? && (s.state == "SKSREG_S2" || (s.state == "SKSREG_S3" && s.address.None?))) &&
      (r.Success? ==>
        r.value.next.(state := s.state) == s && r.value.signal.None? &&
        (!writeOk ==> r.value.next == s) &&
        (r.value.command.Some? <==> s.state in {"SKVER", "SKSETPWD", "SKSETRBID", "SKSREG_SFE", "SKSREG_S2", "SKSREG_S3"}))
  {
  }

  /**
   * OK after the S2 register write sets S3 to the PAN ID; OK after S3 joins
   * the known address, or first resolves the coordinator's link-local
   * address when there is none yet.
   */
  lemma OkRegisters(cfg: Config, s: Session, writeOk: bool)
    requires s.pan.Some?
    ensures s.state == "SKSREG_S2" ==>
      ReactOk(cfg, s, writeOk) == Success(Write(s, "SKSREG", "S3 " + Lookup(s.pan.value, "Pan ID"), writeOk)) &&
      (writeOk ==> ReactOk(cfg, s, writeOk).value.next.state == "SKSREG_S3")
    ensures s.state == "SKSREG_S3" && s.address.Some? ==>
      ReactOk(cfg, s, writeOk) == Success(Write(s, "SKJOIN", s.address.value, writeOk))
    ensures s.state == "SKSREG_S3" && s.address.None? ==>
      ReactOk(cfg, s, writeOk) == Success(Write(s, "SKLL64", Lookup(s.pan.value, "Addr"), writeOk))
  {
    if s.state == "SKSREG_S2" {
      var id := Lookup(s.pan.value, "Pan ID");
      assert OkCaseOf(s.state) == AfterS2;
      assert "S3 " + id == "S3" + " " + id;
      RegisterState("S3", id);
    } else if s.state == "SKSREG_S3" {
      assert OkCaseOf(s.state) == AfterS3;
    }
  }

  /**
   * Command echoes, EVER, every FAIL, EVENT codes other than 22 and 25, and
   * ERXUDP from any port but 0E1A write nothing, emit nothing and change nothing.
   */
  lemma InertLines(cfg: Config, s: Session, line: string, writeOk: bool)
    requires var fields := Split(line, ' ');
      fields[0] in EchoedCommands || fields[0] == "EVER" || fields[0] == "FAIL" ||
      (fields[0] == "EVENT" && !FieldIs(fields, 1, "22") && !FieldIs(fields, 1, "25")) ||
      (fields[0] == "ERXUDP" && !FieldIs(fields, 3, EchonetPort))
    ensures React(cfg, s, line, writeOk) == Success(Reaction(s, None, None))
  {
  }

  /**
   * EVENT 22 (active scan finished) with no PAN descriptor yet scans again
   * with the very command the first scan used; with one, it resolves the
   * coordinator's link-local address.
   */
  lemma ScanRetry(cfg: Config, s: Session, fields: seq<string>, writeOk: bool)
    requires FieldIs(fields, 1, "22")
    ensures s.pan.None? ==>
      ReactEvent(cfg, s, fields, writeOk).command == ReactOk(cfg, s.(state := "SKSETRBID"), writeOk).value.command &&
      ReactEvent(cfg, s, fields, writeOk).next == ReactOk(cfg, s.(state := "SKSETRBID"), writeOk).value.next.(state :=
        if writeOk then "SKSCAN" else s.state)
    ensures s.pan.Some? ==>
      ReactEvent(cfg, s, fields, writeOk) == Write(s, "SKLL64", Lookup(s.pan.value, "Addr"), writeOk)
  {
  }

  /**
   * A datagram from a port other than 02CC and 0E1A: the code as written
   * throws while logging it, the intended branch only logs it. The line
   * `ERXUDP <sender> <dest> 0050 0050 <mac> 0 0002 ABCD` is one such.
   */
  lemma UnknownPortThrows(cfg: Config, s: Session, line: string, writeOk: bool)
    requires var fields := Split(line, ' '); |fields| > 3 && fields[3] != "02CC" && fields[3] != EchonetPort
    ensures ReactUdpAsWritten(s, line, Split(line, ' ')) == Failure(UndefinedName)
    ensures ReactUdp(s, line, Split(line, ' ')) == Success(Reaction(s, None, None))
    ensures Split(line, ' ')[0] == "ERXUDP" ==> React(cfg, s, line, writeOk) == Success(Reaction(s, None, None))
  {
  }

  /** EPANDESC (a PAN descriptor follows) only moves `_state` to EPANDESC. */
  lemma PanDescriptorEvent(cfg: Config, s: Session, line: string, writeOk: bool)
    requires Split(line, ' ')[0] == "EPANDESC"
    ensures React(cfg, s, line, writeOk) == Success(Reaction(s.(state := "EPANDESC"), None, None))
  {
    NotAnEcho("EPANDESC");
    var head := Split(line, ' ')[0];
    assert Classify(head) == PanDescriptor;
    assert React(cfg, s, line, writeOk) == Success(Inert(s.(state := "EPANDESC")));
  }

  /** Every command echo starts with `S`, so a field starting otherwise is none. */
  lemma NotAnEcho(head: string)
    requires |head| > 0 && head[0] != 'S'
    ensures head !in EchoedCommands
  {
    forall c | c in EchoedCommands
      ensures c[0] == 'S'
    {
    }
  }

  /** A line whose first field is `OK` goes to the OK branch, one whose first field is `EVENT` to the EVENT branch. */
  lemma Routing(cfg: Config, s: Session, line: string, writeOk: bool)
    ensures Split(line, ' ')[0] == "OK" ==> React(cfg, s, line, writeOk) == ReactOk(cfg, s, writeOk)
    ensures Split(line, ' ')[0] == "EVENT" ==> React(cfg, s, line, writeOk) == Success(ReactEvent(cfg, s, Split(line, ' '), writeOk))
  {
  }

  /**
   * In state EPANDESC a line that is no keyword, `key:value` once trimmed,
   * stores `_PAN[key] = value`, creating `_PAN` if needed; every other key
   * keeps its value and nothing else changes.
   */
  lemma PanDescriptorLine(cfg: Config, s: Session, line: string, writeOk: bool)
    requires s.state == "EPANDESC" && Classify(Split(line, ' ')[0]) == NoKeyword
    ensures var r := React(cfg, s, line, writeOk);
      r.Success? && r.value.command.None? && r.value.signal.None? && r.value.next.(pan := s.pan) == s
    ensures var pan := React(cfg, s, line, writeOk).value.next.pan; var attribute := Split(Trim(line), ':');
      pan.Some? && attribute[0] in pan.value &&
      pan.value[attribute[0]] == (if |attribute| > 1 then attribute[1] else "undefined") &&
      (forall k :: k in pan.value && k != attribute[0] ==> s.pan.Some? && k in s.pan.value && pan.value[k] == s.pan.value[k]) &&
      (s.pan.Some? ==> s.pan.value.Keys <= pan.value.Keys)
  {
  }

  /**
   * In state SKLL64 the answer line's first field becomes `_address`, and the
   * channel of the PAN descriptor is written to register S2; without a PAN
   * descriptor the line is rejected and nothing changes.
   */
  lemma LinkLocalAddressLine(cfg: Config, s: Session, line: string, writeOk: bool)
    requires s.state == "SKLL64" && Classify(Split(line, ' ')[0]) == NoKeyword
    ensures s.pan.None? ==> React(cfg, s, line, writeOk) == Failure(NoPanDescriptor)
    ensures s.pan.Some? ==>
      var r := React(cfg, s, line, writeOk);
      r.Success? && r.value.next.address == Some(Split(line, ' ')[0]) &&
      r.value.command == Some(Line(CommandLine("SKSREG", "S2 " + Lookup(s.pan.value, "Channel")))) &&
      r.value.next.state == (if writeOk then "SKSREG_S2" else "SKLL64") && r.value.signal.None?
  {
    if s.pan.Some? {
      assert "S2 " + Lookup(s.pan.value, "Channel") == "S2" + " " + Lookup(s.pan.value, "Channel");
      RegisterState("S2", Lookup(s.pan.value, "Channel"));
    }
  }

  lemma {:induction false} PayloadOffsetCons(fields: seq<string>, n: nat)
    requires 0 < n <= |fields|
    ensures PayloadOffset(fields, n) == |fields[0]| + 1 + PayloadOffset(fields[1..], n - 1)
    decreases n
  {
    if n > 1 {
      PayloadOffsetCons(fields, n - 1);
      assert fields[1..][n - 2] == fields[n - 1];
    }
  }

  /**
   * Summing the first `n` field lengths of `line.split(' ')`, one separator
   * each, lands where field `n` starts: the rest of the line is the remaining
   * fields joined by spaces, so a payload with spaces in it comes back whole.
   */
  lemma {:induction false} PayloadOffsetLocates(line: string, n: nat)
    requires n < |Split(line, ' ')|
    ensures PayloadOffset(Split(line, ' '), n) <= |line|
    ensures line[PayloadOffset(Split(line, ' '), n)..] == Join(Split(line, ' ')[n..], ' ')
    decreases |line|
  {
    var fields := Split(line, ' ');
    if n == 0 {
      JoinSplit(line, ' ');
      assert fields[0..] == fields;
    } else {
      var k := IndexOf(line, ' ');
      var rest := line[k + 1..];
      var tail := Split(rest, ' ');
      assert fields == [line[..k]] + tail;
      assert fields[0] == line[..k] && fields[1..] == tail;
      PayloadOffsetCons(fields, n);
      PayloadOffsetLocates(rest, n - 1);
      var off := PayloadOffset(tail, n - 1);
      assert PayloadOffset(fields, n) == k + 1 + off;
      assert fields[n..] == tail[n - 1..];
      SliceOfSlice(line, k + 1, off, PayloadOffset(fields, n));
    }
  }

  lemma SliceOfSlice(s: string, a: nat, b: nat, c: nat)
    requires c == a + b <= |s|
    ensures s[a..][b..] == s[c..]
  {
  }

  /**
   * ERXUDP from port 0E1A: the frame is decoded from everything after the
   * eighth field, spaces included, and emitted as `echonet`; `_state` returns
   * to IDLE exactly when the sender is the smart meter. A payload shorter
   * than the frame it declares is rejected.
   */
  lemma EchonetFrameLine(cfg: Config, s: Session, line: string, writeOk: bool)
    requires var fields := Split(line, ' '); fields[0] == "ERXUDP" && FieldIs(fields, 3, EchonetPort) && |fields| > 8
    ensures var bytes := BinaryBytes(Join(Split(line, ' ')[8..], ' ')); var r := React(cfg, s, line, writeOk);
      (r.Success? <==> Decode(bytes).Success?) &&
      (r.Success? ==>
        r.value.signal == Some(EchonetFrame(Decode(bytes).value)) && r.value.command.None? &&
        r.value.next == (if Decode(bytes).value.seoj == SmartMeter then s.(state := "IDLE") else s))
  {
    PayloadOffsetLocates(line, 8);
  }

  /** The outcomes after a successful and after a failed write differ in `_state` at most. */
  ghost predicate OnlyStateDiffers(ok: Result<Reaction, SessionError>, failed: Result<Reaction, SessionError>)
  {
    ok.Success? == failed.Success? &&
    (ok.Failure? ==> ok.error == failed.error) &&
    (ok.Success? ==>
      ok.value.command == failed.value.command && ok.value.signal == failed.value.signal &&
      ok.value.next.(state := failed.value.next.state) == failed.value.next &&
      (ok.value.command.None? ==> ok.value.next == failed.value.next))
  }

  /** `_PAN` is not reset and keeps every key it had, and `_isConnected` stays true once set. */
  ghost predicate Keeps(s: Session, r: Result<Reaction, SessionError>)
  {
    r.Success? ==>
      (s.pan.Some? ==> r.value.next.pan.Some? && s.pan.value.Keys <= r.value.next.pan.value.Keys) &&
      (s.isConnected ==> r.value.next.isConnected)
  }

  /** The call emitted `connect`. */
  ghost predicate EmitsConnect(r: Result<Reaction, SessionError>)
  {
    r.Success? && r.value.signal == Some(Connect)
  }

  /** EVENT: the write outcome shows only in `_state`, nothing is lost, and `connect` comes exactly from code 25. */
  lemma EventBranch(cfg: Config, s: Session, fields: seq<string>, writeOk: bool)
    ensures OnlyStateDiffers(Success(ReactEvent(cfg, s, fields, true)), Success(ReactEvent(cfg, s, fields, false)))
    ensures Keeps(s, Success(ReactEvent(cfg, s, fields, writeOk)))
    ensures EmitsConnect(Success(ReactEvent(cfg, s, fields, writeOk))) <==> FieldIs(fields, 1, "25")
  {
  }

  /** ERXUDP: nothing is written, nothing is lost, and `connect` is never emitted. */
  lemma UdpBranch(s: Session, line: string, fields: seq<string>)
    ensures Keeps(s, ReactUdp(s, line, fields)) && !EmitsConnect(ReactUdp(s, line, fields))
    ensures ReactUdp(s, line, fields).Success? ==> ReactUdp(s, line, fields).value.command.None?
  {
  }

  /** One `send`: the write outcome shows only in `_state`, and only `_state` changes. */
  lemma WriteBranch(s: Session, command: string, parameters: string, writeOk: bool)
    ensures OnlyStateDiffers(Success(Write(s, command, parameters, true)), Success(Write(s, command, parameters, false)))
    ensures Keeps(s, Success(Write(s, command, parameters, writeOk)))
    ensures !EmitsConnect(Success(Write(s, command, parameters, writeOk)))
  {
  }

  /** OK: the write outcome shows only in `_state`, nothing is lost, and `connect` is never emitted. */
  lemma OkBranch(cfg: Config, s: Session, writeOk: bool)
    ensures OnlyStateDiffers(ReactOk(cfg, s, true), ReactOk(cfg, s, false))
    ensures Keeps(s, ReactOk(cfg, s, writeOk)) && !EmitsConnect(ReactOk(cfg, s, writeOk))
  {
    match OkCaseOf(s.state)
    case AfterVersion => WriteBranch(s, "SKSETPWD", "C " + cfg.password, writeOk);
    case AfterPassword => WriteBranch(s, "SKSETRBID", cfg.id, writeOk);
    case AfterRouteBId => WriteBranch(s, "SKSCAN", ScanParameters(cfg), writeOk);
    case AfterEchoOff => WriteBranch(s, "SKVER", "", writeOk);
    case AfterS2 =>
      if s.pan.Some? {
        WriteBranch(s, "SKSREG", "S3 " + Lookup(s.pan.value, "Pan ID"), writeOk);
      }
    case AfterS3 =>
      if s.address.Some? {
        WriteBranch(s, "SKJOIN", s.address.value, writeOk);
      } else if s.pan.Some? {
        WriteBranch(s, "SKLL64", Lookup(s.pan.value, "Addr"), writeOk);
      }
    case NoNextCommand =>
  }

  /** A line that is no keyword: as for OK; a PAN descriptor attribute only adds a key. */
  lemma OtherBranch(s: Session, line: string, head: string, writeOk: bool)
    ensures OnlyStateDiffers(ReactOther(s, line, head, true), ReactOther(s, line, head, false))
    ensures Keeps(s, ReactOther(s, line, head, writeOk)) && !EmitsConnect(ReactOther(s, line, head, writeOk))
  {
  }

  /**
   * The outcome of the port write only ever affects `_state`: the same line
   * writes the same command and emits the same event either way, and a line
   * that writes nothing does not depend on it at all.
   */
  lemma WriteOutcomeOnlyAffectsState(cfg: Config, s: Session, line: string)
    ensures OnlyStateDiffers(React(cfg, s, line, true), React(cfg, s, line, false))
  {
    var fields := Split(line, ' ');
    match Classify(fields[0])
    case Echo | Ever | Fail | PanDescriptor =>
    case Event => EventBranch(cfg, s, fields, true);
    case UdpReceived =>
    case Ok => OkBranch(cfg, s, true);
    case NoKeyword => OtherBranch(s, line, fields[0], true);
  }

  /** Across every line, `_PAN` is never reset or loses a key, and `_isConnected` never goes back to false. */
  lemma DispatchKeeps(cfg: Config, s: Session, line: string, writeOk: bool)
    ensures Keeps(s, React(cfg, s, line, writeOk))
  {
    var fields := Split(line, ' ');
    match Classify(fields[0])
    case Echo | Ever | Fail | PanDescriptor =>
    case Event => EventBranch(cfg, s, fields, writeOk);
    case UdpReceived => UdpBranch(s, line, fields);
    case Ok => OkBranch(cfg, s, writeOk);
    case NoKeyword => OtherBranch(s, line, fields[0], writeOk);
  }

  /**
   * Exactly the lines `EVENT 25 ...` (PANA authentication complete) emit
   * `connect`, once, and they set `_isConnected` and return to IDLE without
   * writing anything.
   */
  lemma ConnectOnEvent25(cfg: Config, s: Session, line: string, writeOk: bool)
    ensures var fields := Split(line, ' ');
      EmitsConnect(React(cfg, s, line, writeOk)) <==> (fields[0] == "EVENT" && FieldIs(fields, 1, "25"))
    ensures var fields := Split(line, ' ');
      fields[0] == "EVENT" && FieldIs(fields, 1, "25") ==>
        React(cfg, s, line, writeOk) == Success(Reaction(s.(isConnected := true, state := "IDLE"), None, Some(Connect)))
  {
    var fields := Split(line, ' ');
    match Classify(fields[0])
    case Echo | Ever | Fail | PanDescriptor =>
    case Event => EventBranch(cfg, s, fields, writeOk);
    case UdpReceived => UdpBranch(s, line, fields);
    case Ok => OkBranch(cfg, s, writeOk);
    case NoKeyword => OtherBranch(s, line, fields[0], writeOk);
  }

  // ================================================================ runs of lines

  /** Where a run of lines leaves the session, with every write and every event it produced, in order. */
  datatype Trace = Trace(session: Session, commands: seq<Command>, signals: seq<Signal>)

  /** What one line does to a session. */
  type Step = (Session, string) -> Result<Reaction, SessionError>

  /** `dispatch` with every write succeeding. */
  function Dispatcher(cfg: Config): Step
  {
    (s: Session, line: string) => React(cfg, s, line, true)
  }

  /**
   * `step` applied to each line in turn, collecting the writes and events.
   * An error thrown by a line ends the run: nothing after it is dispatched.
   */
  function RunWith(step: Step, s: Session, lines: seq<string>): Result<Trace, SessionError>
    decreases |lines|
  {
    if lines == [] then Success(Trace(s, [], []))
    else
      match step(s, lines[0])
      case Failure(e) => Failure(e)
      case Success(x) => Then(x, RunWith(step, x.next, lines[1..]))
  }

  /** One line's effect `x` put in front of the run of the lines after it. */
  function Then(x: Reaction, rest: Result<Trace, SessionError>): Result<Trace, SessionError>
  {
    match rest
    case Failure(e) => Failure(e)
    case Success(t) => Success(Trace(t.session, Emitted(x.command) + t.commands, Emitted(x.signal) + t.signals))
  }

  /** `dispatch` applied to a sequence of lines from session `s`, every write succeeding. */
  function Run(cfg: Config, s: Session, lines: seq<string>): Result<Trace, SessionError>
  {
    RunWith(Dispatcher(cfg), s, lines)
  }

  /** A run over `a + b` is the run over `a` followed by the run over `b` from where `a` ended. */
  lemma {:induction false} RunAppend(step: Step, s: Session, a: seq<string>, b: seq<string>, t: Trace, u: Trace)
    requires RunWith(step, s, a) == Success(t) && RunWith(step, t.session, b) == Success(u)
    ensures RunWith(step, s, a + b) == Success(Trace(u.session, t.commands + u.commands, t.signals + u.signals))
    decreases |a|
  {
    if a == [] {
      assert a + b == b && t == Trace(s, [], []);
      assert [] + u.commands == u.commands && [] + u.signals == u.signals;
    } else {
      var first := step(s, a[0]);
      assert first.Success?;
      var x := first.value;
      var t' := RunWith(step, x.next, a[1..]).value;
      assert t == Trace(t'.session, Emitted(x.command) + t'.commands, Emitted(x.signal) + t'.signals);
      RunAppend(step, x.next, a[1..], b, t', u);
      var ab := a + b;
      assert ab[0] == a[0] && ab[1..] == a[1..] + b;
      assert RunWith(step, s, ab) == Then(x, RunWith(step, x.next, ab[1..]));
      var c := Emitted(x.command) + (t'.commands + u.commands);
      var g := Emitted(x.signal) + (t'.signals + u.signals);
      assert RunWith(step, s, ab) == Success(Trace(u.session, c, g));
      assert t.commands == Emitted(x.command) + t'.commands && t.signals == Emitted(x.signal) + t'.signals;
      Associative(Emitted(x.command), t'.commands, u.commands);
      Associative(Emitted(x.signal), t'.signals, u.signals);
    }
  }

  lemma Associative<T>(x: seq<T>, y: seq<T>, z: seq<T>)
    ensures x + (y + z) == (x + y) + z
  {
  }

  /** A line with a successful effect `x`, followed by a run from where it leaves the session. */
  lemma RunCons(step: Step, s: Session, line: string, rest: seq<string>, x: Reaction, t: Trace, lines: seq<string>, u: Trace)
    requires step(s, line) == Success(x) && RunWith(step, x.next, rest) == Success(t)
    requires lines == [line] + rest
    requires u == Trace(t.session, Emitted(x.command) + t.commands, Emitted(x.signal) + t.signals)
    ensures RunWith(step, s, lines) == Success(u)
  {
    assert lines[0] == line && lines[1..] == rest;
  }

  /** Five lines, each with a successful effect on the session the previous one left. */
  lemma {:induction false} Chain5(step: Step, s: Session, l0: string, l1: string, l2: string, l3: string, l4: string,
                                  x0: Reaction, x1: Reaction, x2: Reaction, x3: Reaction, x4: Reaction)
    requires step(s, l0) == Success(x0) && step(x0.next, l1) == Success(x1) && step(x1.next, l2) == Success(x2)
    requires step(x2.next, l3) == Success(x3) && step(x3.next, l4) == Success(x4)
    ensures RunWith(step, s, [l0, l1, l2, l3, l4]) == Success(Trace(x4.next,
      Emitted(x0.command) + (Emitted(x1.command) + (Emitted(x2.command) + (Emitted(x3.command) + Emitted(x4.command)))),
      Emitted(x0.signal) + (Emitted(x1.signal) + (Emitted(x2.signal) + (Emitted(x3.signal) + Emitted(x4.signal))))))
  {
    var t5 := Trace(x4.next, [], []);
    var t4 := Trace(x4.next, Emitted(x4.command), Emitted(x4.signal));
    RunCons(step, x3.next, l4, [], x4, t5, [l4], t4);
    var t3 := Trace(x4.next, Emitted(x3.command) + t4.commands, Emitted(x3.signal) + t4.signals);
    RunCons(step, x2.next, l3, [l4], x3, t4, [l3, l4], t3);
    var t2 := Trace(x4.next, Emitted(x2.command) + t3.commands, Emitted(x2.signal) + t3.signals);
    RunCons(step, x1.next, l2, [l3, l4], x2, t3, [l2, l3, l4], t2);
    var t1 := Trace(x4.next, Emitted(x1.command) + t2.commands, Emitted(x1.signal) + t2.signals);
    RunCons(step, x0.next, l1, [l2, l3, l4], x1, t2, [l1, l2, l3, l4], t1);
    var t0 := Trace(x4.next, Emitted(x0.command) + t1.commands, Emitted(x0.signal) + t1.signals);
    RunCons(step, s, l0, [l1, l2, l3, l4], x0, t1, [l0, l1, l2, l3, l4], t0);
  }

  /** The module's `OK`. */
  predicate IsOk(line: string)
  {
    Split(line, ' ')[0] == "OK"
  }

  /** `EVENT <code> ...`. */
  predicate IsEvent(line: string, code: string)
  {
    var fields := Split(line, ' '); |fields| > 1 && fields[0] == "EVENT" && fields[1] == code
  }

  /** One `key:value` line of a PAN descriptor. */
  predicate IsAttribute(line: string, key: string, value: string)
  {
    Classify(Split(line, ' ')[0]) == NoKeyword && Split(Trim(line), ':') == [key, value]
  }

  /** The answer to SKLL64: the link-local address, first on its line. */
  predicate IsAddressReply(line: string, address: string)
  {
    Split(line, ' ')[0] == address && Classify(address) == NoKeyword
  }

  /** An OK in step `i` of the connection sequence, seen through `dispatch`. */
  lemma OkLine(cfg: Config, s: Session, ok: string, i: nat)
    requires IsOk(ok) && i < 4 && s.state == Handshake[i]
    ensures Dispatcher(cfg)(s, ok) == Success(Reaction(s.(state := Handshake[i + 1]),
      Some(Line(CommandLine(Handshake[i + 1], ["", "C " + cfg.password, cfg.id, ScanParameters(cfg)][i]))), None))
  {
    Routing(cfg, s, ok, true);
    OkAdvancesHandshake(cfg, s, i);
  }

  /** OK once the scan command is written changes nothing. */
  lemma OkAfterScan(cfg: Config, s: Session, ok: string)
    requires IsOk(ok) && s.state == "SKSCAN"
    ensures Dispatcher(cfg)(s, ok) == Success(Reaction(s, None, None))
  {
    Routing(cfg, s, ok, true);
    assert OkCaseOf(s.state) == NoNextCommand;
  }

  /**
   * The first part of the connection sequence: from SKSREG_SFE, five OKs
   * write SKVER, `SKSETPWD C <password>`, `SKSETRBID <id>` and
   * `SKSCAN 2 FFFFFFFF <duration>` in that order, the fifth (the scan's) writes
   * nothing, and the session waits in SKSCAN.
   */
  lemma HandshakeRun(cfg: Config, s: Session, ok: string)
    requires IsOk(ok) && s.state == "SKSREG_SFE"
    ensures Run(cfg, s, [ok, ok, ok, ok, ok]) == Success(Trace(s.(state := "SKSCAN"),
      [Line(CommandLine("SKVER", "")), Line(CommandLine("SKSETPWD", "C " + cfg.password)),
       Line(CommandLine("SKSETRBID", cfg.id)), Line(CommandLine("SKSCAN", ScanParameters(cfg)))], []))
  {
    var d := Dispatcher(cfg);
    var c := [Line(CommandLine("SKVER", "")), Line(CommandLine("SKSETPWD", "C " + cfg.password)),
              Line(CommandLine("SKSETRBID", cfg.id)), Line(CommandLine("SKSCAN", ScanParameters(cfg)))];
    var s1, s2, s3, s4 := s.(state := "SKVER"), s.(state := "SKSETPWD"), s.(state := "SKSETRBID"), s.(state := "SKSCAN");
    OkAfterScan(cfg, s4, ok);
    RunCons(d, s4, ok, [], Reaction(s4, None, None), Trace(s4, [], []), [ok], Trace(s4, [], []));
    OkLine(cfg, s3, ok, 3);
    RunCons(d, s3, ok, [ok], Reaction(s4, Some(c[3]), None), Trace(s4, [], []), [ok, ok], Trace(s4, c[3..], []));
    OkLine(cfg, s2, ok, 2);
    RunCons(d, s2, ok, [ok, ok], Reaction(s3, Some(c[2]), None), Trace(s4, c[3..], []), [ok, ok, ok], Trace(s4, c[2..], []));
    OkLine(cfg, s1, ok, 1);
    RunCons(d, s1, ok, [ok, ok, ok], Reaction(s2, Some(c[1]), None), Trace(s4, c[2..], []),
            [ok, ok, ok, ok], Trace(s4, c[1..], []));
    OkLine(cfg, s, ok, 0);
    RunCons(d, s, ok, [ok, ok, ok, ok], Reaction(s1, Some(c[0]), None), Trace(s4, c[1..], []),
            [ok, ok, ok, ok, ok], Trace(s4, c, []));
  }

  /** An EPANDESC line, seen through `dispatch`. */
  lemma PanDescriptorStep(cfg: Config, s: Session, line: string)
    requires Split(line, ' ')[0] == "EPANDESC"
    ensures Dispatcher(cfg)(s, line) == Success(Reaction(s.(state := "EPANDESC"), None, None))
  {
    PanDescriptorEvent(cfg, s, line, true);
  }

  /** A `key:value` line of a PAN descriptor stores the value under the key. */
  lemma AttributeStep(cfg: Config, s: Session, line: string, key: string, value: string, before: map<string, string>)
    requires s.state == "EPANDESC" && IsAttribute(line, key, value)
    requires s.pan == Some(before) || (s.pan.None? && before == map[])
    ensures Dispatcher(cfg)(s, line) == Success(Reaction(s.(pan := Some(before[key := value])), None, None))
  {
    assert AddAttribute(s.pan, line) == before[key := value];
  }

  /** EVENT 22 once a PAN descriptor is known resolves its address. */
  lemma ScanEndStep(cfg: Config, s: Session, line: string)
    requires IsEvent(line, "22") && s.pan.Some?
    ensures Dispatcher(cfg)(s, line) ==
      Success(Reaction(s.(state := "SKLL64"), Some(Line(CommandLine("SKLL64", Lookup(s.pan.value, "Addr")))), None))
  {
    Routing(cfg, s, line, true);
  }

  /** The answer to SKLL64 records the address and writes the channel to register S2. */
  lemma AddressStep(cfg: Config, s: Session, line: string, address: string)
    requires s.state == "SKLL64" && s.pan.Some? && IsAddressReply(line, address)
    ensures Dispatcher(cfg)(s, line) == Success(Reaction(s.(address := Some(address), state := "SKSREG_S2"),
      Some(Line(CommandLine("SKSREG", "S2 " + Lookup(s.pan.value, "Channel")))), None))
  {
    var channel := Lookup(s.pan.value, "Channel");
    assert "S2 " + channel == "S2" + " " + channel;
    RegisterState("S2", channel);
    assert "SKSREG_" + "S2" == "SKSREG_S2";
    assert React(cfg, s, line, true) == ReactOther(s, line, address, true);
  }

  /** OK after register S2, then after register S3 once the address is known. */
  lemma RegisterSteps(cfg: Config, s: Session, ok: string)
    requires IsOk(ok) && s.pan.Some? && s.address.Some?
    ensures s.state == "SKSREG_S2" ==> Dispatcher(cfg)(s, ok) == Success(Reaction(s.(state := "SKSREG_S3"),
      Some(Line(CommandLine("SKSREG", "S3 " + Lookup(s.pan.value, "Pan ID")))), None))
    ensures s.state == "SKSREG_S3" ==> Dispatcher(cfg)(s, ok) == Success(Reaction(s.(state := "SKJOIN"),
      Some(Line(CommandLine("SKJOIN", s.address.value))), None))
    ensures s.state == "SKJOIN" ==> Dispatcher(cfg)(s, ok) == Success(Reaction(s, None, None))
  {
    Routing(cfg, s, ok, true);
    OkRegisters(cfg, s, true);
    if s.state == "SKJOIN" {
      assert OkCaseOf(s.state) == NoNextCommand;
    }
  }

  /** EVENT 25 connects and returns to IDLE. */
  lemma ConnectStep(cfg: Config, s: Session, line: string)
    requires IsEvent(line, "25")
    ensures Dispatcher(cfg)(s, line) == Success(Reaction(s.(isConnected := true, state := "IDLE"), None, Some(Connect)))
  {
    Routing(cfg, s, line, true);
  }

  /**
   * The active scan: EPANDESC, then the Channel, Pan ID and Addr attributes
   * of the descriptor, then EVENT 22, which resolves the address given as
   * Addr. No PAN descriptor is known before.
   */
  lemma ScanRun(cfg: Config, s: Session, epandesc: string, channel: string, panId: string, addr: string, scanned: string,
                ch: string, id: string, a: string)
    requires s.pan.None? && Split(epandesc, ' ')[0] == "EPANDESC" && IsEvent(scanned, "22")
    requires IsAttribute(channel, "Channel", ch) && IsAttribute(panId, "Pan ID", id) && IsAttribute(addr, "Addr", a)
    ensures Run(cfg, s, [epandesc, channel, panId, addr, scanned]) ==
      Success(Trace(s.(pan := Some(map[]["Channel" := ch]["Pan ID" := id]["Addr" := a]), state := "SKLL64"),
                    [Line(CommandLine("SKLL64", a))], []))
  {
    var m1 := map[]["Channel" := ch];
    var m2 := m1["Pan ID" := id];
    var m3 := m2["Addr" := a];
    assert Lookup(m3, "Addr") == a;
    var e := s.(state := "EPANDESC");
    PanDescriptorStep(cfg, s, epandesc);
    AttributeStep(cfg, e, channel, "Channel", ch, map[]);
    AttributeStep(cfg, e.(pan := Some(m1)), panId, "Pan ID", id, m1);
    AttributeStep(cfg, e.(pan := Some(m2)), addr, "Addr", a, m2);
    ScanEndStep(cfg, e.(pan := Some(m3)), scanned);
    ScanChain(Dispatcher(cfg), s, epandesc, channel, panId, addr, scanned, e, m1, m2, m3, Line(CommandLine("SKLL64", a)));
  }

  /** Five lines of which only the last writes, and none emits an event. */
  lemma ScanChain(step: Step, s: Session, l0: string, l1: string, l2: string, l3: string, l4: string,
                  e: Session, m1: map<string, string>, m2: map<string, string>, m3: map<string, string>, c: Command)
    requires step(s, l0) == Success(Reaction(e, None, None))
    requires step(e, l1) == Success(Reaction(e.(pan := Some(m1)), None, None))
    requires step(e.(pan := Some(m1)), l2) == Success(Reaction(e.(pan := Some(m2)), None, None))
    requires step(e.(pan := Some(m2)), l3) == Success(Reaction(e.(pan := Some(m3)), None, None))
    requires step(e.(pan := Some(m3)), l4) == Success(Reaction(e.(pan := Some(m3), state := "SKLL64"), Some(c), None))
    ensures RunWith(step, s, [l0, l1, l2, l3, l4]) == Success(Trace(e.(pan := Some(m3), state := "SKLL64"), [c], []))
  {
    var x0, x1, x2 := Reaction(e, None, None), Reaction(e.(pan := Some(m1)), None, None), Reaction(e.(pan := Some(m2)), None, None);
    var x3, x4 := Reaction(e.(pan := Some(m3)), None, None), Reaction(e.(pan := Some(m3), state := "SKLL64"), Some(c), None);
    Chain5(step, s, l0, l1, l2, l3, l4, x0, x1, x2, x3, x4);
    assert Emitted(x0.command) + (Emitted(x1.command) + (Emitted(x2.command) + (Emitted(x3.command) + Emitted(x4.command)))) == [c];
    assert Emitted(x0.signal) + (Emitted(x1.signal) + (Emitted(x2.signal) + (Emitted(x3.signal) + Emitted(x4.signal)))) == [];
  }

  /**
   * Joining: the SKLL64 answer, OK to the S2 and S3 register writes, OK to
   * SKJOIN, then EVENT 25. The session ends connected in IDLE, with exactly
   * one `connect`.
   */
  lemma JoinRun(cfg: Config, s: Session, reply: string, ok: string, joined: string, ll: string)
    requires s.state == "SKLL64" && s.pan.Some? && s.address.None?
    requires IsAddressReply(reply, ll) && IsOk(ok) && IsEvent(joined, "25")
    ensures Run(cfg, s, [reply, ok, ok, ok, joined]) ==
      Success(Trace(s.(address := Some(ll), state := "IDLE", isConnected := true),
                    [Line(CommandLine("SKSREG", "S2 " + Lookup(s.pan.value, "Channel"))),
                     Line(CommandLine("SKSREG", "S3 " + Lookup(s.pan.value, "Pan ID"))),
                     Line(CommandLine("SKJOIN", ll))], [Connect]))
  {
    var c0 := Line(CommandLine("SKSREG", "S2 " + Lookup(s.pan.value, "Channel")));
    var c1 := Line(CommandLine("SKSREG", "S3 " + Lookup(s.pan.value, "Pan ID")));
    var a := s.(address := Some(ll));
    AddressStep(cfg, s, reply, ll);
    RegisterSteps(cfg, a.(state := "SKSREG_S2"), ok);
    RegisterSteps(cfg, a.(state := "SKSREG_S3"), ok);
    RegisterSteps(cfg, a.(state := "SKJOIN"), ok);
    ConnectStep(cfg, a.(state := "SKJOIN"), joined);
    JoinChain(Dispatcher(cfg), s, reply, ok, ok, ok, joined, a, c0, c1, Line(CommandLine("SKJOIN", ll)));
  }

  /** Five lines of which the first three write and only the last emits an event, `connect`. */
  lemma JoinChain(step: Step, s: Session, l0: string, l1: string, l2: string, l3: string, l4: string,
                  a: Session, c0: Command, c1: Command, c2: Command)
    requires step(s, l0) == Success(Reaction(a.(state := "SKSREG_S2"), Some(c0), None))
    requires step(a.(state := "SKSREG_S2"), l1) == Success(Reaction(a.(state := "SKSREG_S3"), Some(c1), None))
    requires step(a.(state := "SKSREG_S3"), l2) == Success(Reaction(a.(state := "SKJOIN"), Some(c2), None))
    requires step(a.(state := "SKJOIN"), l3) == Success(Reaction(a.(state := "SKJOIN"), None, None))
    requires step(a.(state := "SKJOIN"), l4) == Success(Reaction(a.(isConnected := true, state := "IDLE"), None, Some(Connect)))
    ensures RunWith(step, s, [l0, l1, l2, l3, l4]) == Success(Trace(a.(isConnected := true, state := "IDLE"), [c0, c1, c2], [Connect]))
  {
    var x0, x1 := Reaction(a.(state := "SKSREG_S2"), Some(c0), None), Reaction(a.(state := "SKSREG_S3"), Some(c1), None);
    var x2, x3 := Reaction(a.(state := "SKJOIN"), Some(c2), None), Reaction(a.(state := "SKJOIN"), None, None);
    var x4 := Reaction(a.(isConnected := true, state := "IDLE"), None, Some(Connect));
    Chain5(step, s, l0, l1, l2, l3, l4, x0, x1, x2, x3, x4);
    assert Emitted(x0.command) + (Emitted(x1.command) + (Emitted(x2.command) + (Emitted(x3.command) + Emitted(x4.command)))) == [c0, c1, c2];
    assert Emitted(x0.signal) + (Emitted(x1.signal) + (Emitted(x2.signal) + (Emitted(x3.signal) + Emitted(x4.signal)))) == [Connect];
  }

  /**
   * The whole connection sequence. `start` writes `SKSREG SFE 0` from the
   * initial session; then five OKs, the active scan's five lines, and the
   * SKLL64 answer, three OKs and EVENT 25. The session ends connected in
   * IDLE, holding the PAN descriptor and the link-local address; the writes
   * are exactly the eight connection commands in order, and exactly one
   * `connect` is emitted.
   */
  lemma HappyPath(cfg: Config, ok: string, epandesc: string, channel: string, panId: string, addr: string, scanned: string,
                  reply: string, joined: string, ch: string, id: string, a: string, ll: string)
    requires IsOk(ok) && Split(epandesc, ' ')[0] == "EPANDESC" && IsEvent(scanned, "22")
    requires IsAttribute(channel, "Channel", ch) && IsAttribute(panId, "Pan ID", id) && IsAttribute(addr, "Addr", a)
    requires IsAddressReply(reply, ll) && IsEvent(joined, "25")
    ensures Write(Initial, "SKSREG", "SFE 0", true).command == Some(Line(CommandLine("SKSREG", "SFE 0")))
    ensures Run(cfg, Write(Initial, "SKSREG", "SFE 0", true).next,
                [ok, ok, ok, ok, ok] + [epandesc, channel, panId, addr, scanned] + [reply, ok, ok, ok, joined]) ==
      Success(Trace(Session("IDLE", Some(map[]["Channel" := ch]["Pan ID" := id]["Addr" := a]), Some(ll), true),
                    [Line(CommandLine("SKVER", "")), Line(CommandLine("SKSETPWD", "C " + cfg.password)),
                     Line(CommandLine("SKSETRBID", cfg.id)), Line(CommandLine("SKSCAN", ScanParameters(cfg))),
                     Line(CommandLine("SKLL64", a)), Line(CommandLine("SKSREG", "S2 " + ch)),
                     Line(CommandLine("SKSREG", "S3 " + id)), Line(CommandLine("SKJOIN", ll))],
                    [Connect]))
  {
    StartWrite();
    var s0 := Initial.(state := "SKSREG_SFE");
    var m := map[]["Channel" := ch]["Pan ID" := id]["Addr" := a];
    DescriptorLookups(ch, id, a);
    var s1 := s0.(state := "SKSCAN");
    var s2 := s1.(pan := Some(m), state := "SKLL64");
    HandshakeRun(cfg, s0, ok);
    ScanRun(cfg, s1, epandesc, channel, panId, addr, scanned, ch, id, a);
    JoinRun(cfg, s2, reply, ok, joined, ll);
    var d := Dispatcher(cfg);
    var h, sc, j := [ok, ok, ok, ok, ok], [epandesc, channel, panId, addr, scanned], [reply, ok, ok, ok, joined];
    var wh := [Line(CommandLine("SKVER", "")), Line(CommandLine("SKSETPWD", "C " + cfg.password)),
               Line(CommandLine("SKSETRBID", cfg.id)), Line(CommandLine("SKSCAN", ScanParameters(cfg)))];
    var ws := [Line(CommandLine("SKLL64", a))];
    var wj := [Line(CommandLine("SKSREG", "S2 " + ch)), Line(CommandLine("SKSREG", "S3 " + id)), Line(CommandLine("SKJOIN", ll))];
    assert RunWith(d, s0, h) == Success(Trace(s1, wh, []));
    assert RunWith(d, s1, sc) == Success(Trace(s2, ws, []));
    assert RunWith(d, s2, j) == Success(Trace(Session("IDLE", Some(m), Some(ll), true), wj, [Connect]));
    Compose3(d, s0, h, sc, j, Trace(s1, wh, []), Trace(s2, ws, []), Trace(Session("IDLE", Some(m), Some(ll), true), wj, [Connect]));
    assert Run(cfg, s0, h + sc + j) == Success(Trace(Session("IDLE", Some(m), Some(ll), true), wh + ws + wj, [] + [] + [Connect]));
    Flatten(wh[0], wh[1], wh[2], wh[3], ws[0], wj[0], wj[1], wj[2], Connect);
  }

  /** The writes and events of the three parts of the connection sequence, joined. */
  lemma Flatten<T, U>(c0: T, c1: T, c2: T, c3: T, c4: T, c5: T, c6: T, c7: T, e: U)
    ensures [c0, c1, c2, c3] + [c4] + [c5, c6, c7] == [c0, c1, c2, c3, c4, c5, c6, c7]
    ensures [] + [] + [e] == [e]
  {
  }

  /** Three runs one after the other are the run over their lines joined. */
  lemma Compose3(step: Step, s: Session, a: seq<string>, b: seq<string>, c: seq<string>, ta: Trace, tb: Trace, tc: Trace)
    requires RunWith(step, s, a) == Success(ta) && RunWith(step, ta.session, b) == Success(tb)
    requires RunWith(step, tb.session, c) == Success(tc)
    ensures RunWith(step, s, a + b + c) ==
      Success(Trace(tc.session, ta.commands + tb.commands + tc.commands, ta.signals + tb.signals + tc.signals))
  {
    RunAppend(step, ta.session, b, c, tb, tc);
    RunAppend(step, s, a, b + c, ta, Trace(tc.session, tb.commands + tc.commands, tb.signals + tc.signals));
    Associative(a, b, c);
    Associative(ta.commands, tb.commands, tc.commands);
    Associative(ta.signals, tb.signals, tc.signals);
  }

  /** `start`'s write, made from the initial session, moves it to SKSREG_SFE. */
  lemma StartWrite()
    ensures Write(Initial, "SKSREG", "SFE 0", true) ==
      Reaction(Initial.(state := "SKSREG_SFE"), Some(Line(CommandLine("SKSREG", "SFE 0"))), None)
  {
    RegisterState("SFE", "0");
    assert "SFE" + " " + "0" == "SFE 0" && "SKSREG_" + "SFE" == "SKSREG_SFE";
  }

  /** The three attributes of a PAN descriptor read back under their keys. */
  lemma DescriptorLookups(ch: string, id: string, a: string)
    ensures var m := map[]["Channel" := ch]["Pan ID" := id]["Addr" := a];
      Lookup(m, "Channel") == ch && Lookup(m, "Pan ID") == id && Lookup(m, "Addr") == a
  {
    assert "Channel" != "Pan ID" && "Channel" != "Addr" && "Pan ID" != "Addr";
  }

  // ================================================================ the adapter object

  class BP35A1 {
    const config: Config
    var state: string
    var pan: Option<map<string, string>>
    var address: Option<string>
    var isConnected: bool
    /** Every write issued to the port, in order. */
    ghost var commands: seq<Command>
    /** Every event emitted, in order. */
    ghost var signals: seq<Signal>

    function Snapshot(): Session
      reads this
    {
      Session(state, pan, address, isConnected)
    }

    /** The call ended as `outcome` says, starting from session `s0` and logs `c0`, `g0`, and returned `r`. */
    ghost predicate Took(r: Result<(), SessionError>, outcome: Result<Reaction, SessionError>,
                         s0: Session, c0: seq<Command>, g0: seq<Signal>)
      reads this
    {
      match outcome
      case Failure(e) =>
        r == Failure(e) && Snapshot() == s0 && commands == c0 && signals == g0
      case Success(x) =>
        r == Success(()) && Snapshot() == x.next &&
        commands == c0 + Emitted(x.command) && signals == g0 + Emitted(x.signal)
    }

    constructor (config: Config)
      ensures this.config == config && Snapshot() == Initial
      ensures commands == [] && signals == []
    {
      this.config := config;
      state, pan, address, isConnected := "IDLE", None, None, false;
      commands, signals := [], [];
    }

    /** `start`: turns the command echo off with `SKSREG SFE 0`. */
    method Start(writeOk: bool) returns (r: Result<(), SessionError>)
      modifies this
      ensures Took(r, Success(Write(old(Snapshot()), "SKSREG", "SFE 0", writeOk)), old(Snapshot()), old(commands), old(signals))
      ensures commands == old(commands) + [Line("SKSREG SFE 0\r\n")]
      ensures state == if writeOk then "SKSREG_SFE" else old(state)
    {
      r := Send("SKSREG", "SFE 0", writeOk);
      assert CommandLine("SKSREG", "SFE 0") == "SKSREG SFE 0\r\n";
      assert Split("SFE 0", ' ')[0] == "SFE";
    }

    /** `send(command, parameters)`; the empty string stands for absent parameters. */
    method Send(command: string, parameters: string, writeOk: bool) returns (r: Result<(), SessionError>)
      modifies this
      ensures Took(r, SendStep(old(Snapshot()), command, parameters, writeOk), old(Snapshot()), old(commands), old(signals))
      ensures command == "WOPT" || command == "ROPT" ==>
        r == Failure(UnsupportedCommand) && Snapshot() == old(Snapshot()) && commands == old(commands)
    {
      if command == "WOPT" || command == "ROPT" {
        return Failure(UnsupportedCommand);
      }
      commands := commands + [Line(command + (if parameters != "" then " " + parameters else "") + "\r\n")];
      if writeOk {
        if command == "SKSREG" {
          var register := Split(parameters, ' ')[0];
          state := "SKSREG_" + register;
        } else {
          state := command;
        }
      }
      r := Success(());
    }

    /** `sendEchonet(frame)`: the SKSENDTO header, then exactly `frame.toBuffer()`. */
    method SendEchonet(frame: Frame, writeOk: bool)
      requires frame.Valid()
      modifies this
      ensures Took(Success(()), Success(SendEchonetStep(old(Snapshot()), Encode(frame.Data()), writeOk)),
                   old(Snapshot()), old(commands), old(signals))
    {
      var data := frame.ToBuffer();
      var length := ToHex(data.Length, 4);
      var header := Join(["SKSENDTO", Handle, AddressText(address), EchonetPort, Security, length, ""], ' ');
      commands := commands + [SendTo(header, data[..])];
      if writeOk {
        state := "SKSENDTO";
      }
    }

    /** `dispatch(data)`: reacts to one line from the module. */
    method Dispatch(line: string, writeOk: bool) returns (r: Result<(), SessionError>)
      modifies this
      ensures Took(r, React(config, old(Snapshot()), line, writeOk), old(Snapshot()), old(commands), old(signals))
    {
      var fields := Split(line, ' ');
      match Classify(fields[0])
      case Echo | Ever | Fail =>
        r := Success(());
      case PanDescriptor =>
        state := "EPANDESC";
        r := Success(());
      case Event =>
        r := OnEvent(fields, writeOk);
      case UdpReceived =>
        r := OnUdp(line, fields);
      case Ok =>
        r := OnOk(writeOk);
      case NoKeyword =>
        r := OnOther(line, fields[0], writeOk);
    }

    /** The EVENT branch of `dispatch`. */
    method OnEvent(fields: seq<string>, writeOk: bool) returns (r: Result<(), SessionError>)
      modifies this
      ensures Took(r, Success(ReactEvent(config, old(Snapshot()), fields, writeOk)), old(Snapshot()), old(commands), old(signals))
    {
      if |fields| > 1 && fields[1] == "22" {
        if pan.None? {
          r := Send("SKSCAN", "2 FFFFFFFF " + config.duration, writeOk);
        } else {
          r := Send("SKLL64", Lookup(pan.value, "Addr"), writeOk);
        }
      } else if |fields| > 1 && fields[1] == "25" {
        isConnected := true;
        state := "IDLE";
        signals := signals + [Connect];
        r := Success(());
      } else {
        r := Success(());
      }
    }

    /** The ERXUDP branch of `dispatch`: the payload starts after the eighth field, wherever spaces inside it fall. */
    method OnUdp(line: string, fields: seq<string>) returns (r: Result<(), SessionError>)
      modifies this
      ensures Took(r, ReactUdp(old(Snapshot()), line, fields), old(Snapshot()), old(commands), old(signals))
    {
      if !(|fields| > 3 && fields[3] == EchonetPort) {
        return Success(());
      }
      if |fields| < 8 {
        return Failure(MissingFields);
      }
      var pos := 0;
      var i := 0;
      while i < 8
        invariant 0 <= i <= 8 && pos == PayloadOffset(fields, i)
      {
        pos := pos + |fields[i]| + 1;
        i := i + 1;
      }
      var decoded := Frame.From(BinaryBytes(SliceFrom(line, pos)));
      if decoded.Failure? {
        return Failure(MalformedFrame);
      }
      var frame := decoded.value;
      if Equals(frame.seoj, SmartMeter) {
        state := "IDLE";
      }
      signals := signals + [EchonetFrame(frame.Data())];
      r := Success(());
    }

    /** The OK branch of `dispatch`. */
    method OnOk(writeOk: bool) returns (r: Result<(), SessionError>)
      modifies this
      ensures Took(r, ReactOk(config, old(Snapshot()), writeOk), old(Snapshot()), old(commands), old(signals))
    {
      match OkCaseOf(state)
      case AfterVersion =>
        r := Send("SKSETPWD", "C " + config.password, writeOk);
      case AfterPassword =>
        r := Send("SKSETRBID", config.id, writeOk);
      case AfterRouteBId =>
        r := Send("SKSCAN", "2 FFFFFFFF " + config.duration, writeOk);
      case AfterEchoOff =>
        r := Send("SKVER", "", writeOk);
      case AfterS2 =>
        if pan.None? {
          return Failure(NoPanDescriptor);
        }
        r := Send("SKSREG", "S3 " + Lookup(pan.value, "Pan ID"), writeOk);
      case AfterS3 =>
        if address.Some? {
          r := Send("SKJOIN", address.value, writeOk);
        } else {
          if pan.None? {
            return Failure(NoPanDescriptor);
          }
          r := Send("SKLL64", Lookup(pan.value, "Addr"), writeOk);
        }
      case NoNextCommand =>
        r := Success(());
    }

    /** The default branch of `dispatch`: a line that is no keyword. */
    method OnOther(line: string, head: string, writeOk: bool) returns (r: Result<(), SessionError>)
      modifies this
      ensures Took(r, ReactOther(old(Snapshot()), line, head, writeOk), old(Snapshot()), old(commands), old(signals))
    {
      if state == "EPANDESC" {
        var attribute := Split(Trim(line), ':');
        if pan.None? {
          pan := Some(map[]);
        }
        pan := Some(pan.value[attribute[0] := if |attribute| > 1 then attribute[1] else "undefined"]);
        r := Success(());
      } else if state == "SKLL64" {
        if pan.None? {
          return Failure(NoPanDescriptor);
        }
        address := Some(head);
        r := Send("SKSREG", "S2 " + Lookup(pan.value, "Channel"), writeOk);
      } else {
        r := Success(());
      }
    }
  }
}
