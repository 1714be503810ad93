/** The catalogue of command payloads the client sends to a tuner, with
    their byte layouts, and a strict decoder that recognises exactly the
    payloads the encoder produces. */
module Commands {
  import opened Bytes

  /** The second byte of a 25 (channel information) request. */
  datatype InfoQuery = BySid | ByNumber | Following | Preceding

  function QueryByte(q: InfoQuery): byte
  {
    match q
    case BySid => 0x07
    case ByNumber => 0x08
    case Following => 0x09
    case Preceding => 0x0A
  }

  datatype Command =
    | PowerUp(chLabel: byte, catLabel: byte, titleLabel: byte, lossExpected: bool)
    | PowerDown(powerSave: bool)
    | SetLineLevel(db: byte)
    | ChangeChannel(bySid: bool, channel: byte, data: bool, prgType: byte)
    | ChannelCancel(channel: byte, data: bool)
    | SetMute(mute: bool)
    | ExtInfo(channel: byte)
    | ChannelInfo(query: InfoQuery, channel: byte, prgType: byte)
    | GetRadioId
    | SignalMonitor(on: bool)
    | SignalInfo
    | ClockMonitor(on: bool)
    | ChannelMonitor(dataOn: bool, channel: byte, service: bool, programType: bool, info: bool, extended: bool)
    | DiagMonitor(on: bool)
    | FirmwareVersion(magic: byte)
    | DataChannel(sid: byte, flagOne: bool, flagTwo: bool)
    | DataPing
    | DataFirmware
    | GpsModule(connect: bool)
    | DirectListen(on: bool)
    | DirectVoltage(first: bool, second: bool)
    | DirectDacMute(mute: bool)

  /** The payload of each command (utils/comm/canitx.py, utils/comm/special/caniwx.py,
      utils/comm/special/canidx.py). A bool is sent as 00 or 01. */
  function Encode(c: Command): (p: seq<byte>)
    ensures 1 <= |p| <= 6
  {
    match c
    case PowerUp(ch, cat, title, loss) => [0x00, ch, cat, title, B(loss)]
    case PowerDown(save) => [0x01, B(save)]
    case SetLineLevel(db) => [0x0B, db]
    case ChangeChannel(bySid, ch, data, prg) => [0x10, 0x02 - B(bySid), ch, B(data), prg, 0x01 + B(data)]
    case ChannelCancel(ch, data) => [0x11, ch, B(data)]
    case SetMute(m) => [0x13, B(m)]
    case ExtInfo(ch) => [0x22, ch]
    case ChannelInfo(q, ch, prg) => [0x25, QueryByte(q), ch, prg]
    case GetRadioId => [0x31]
    case SignalMonitor(on) => [0x42, B(on)]
    case SignalInfo => [0x43]
    case ClockMonitor(on) => [0x4E, B(on)]
    case ChannelMonitor(dataOn, ch, sv, pt, inf, ext) => [0x50 - B(dataOn), ch, B(sv), B(pt), B(inf), B(ext)]
    case DiagMonitor(on) => [0x60, B(on)]
    case FirmwareVersion(magic) => [0x70, magic]
    case DataChannel(sid, f1, f2) => [0x4A, 0x10, sid, B(f1), B(f2)]
    case DataPing => [0x4A, 0x43]
    case DataFirmware => [0x4A, 0x44]
    case GpsModule(connect) => [0x4B, 0x09, 0x00, if connect then 0x01 else 0x03]
    case DirectListen(on) => [0x74, 0x00, B(on)]
    case DirectVoltage(a, b) => [0x74, 0x02, B(a), B(b)]
    case DirectDacMute(m) => [0x74, 0x0B, B(m)]
  }

  function Flag(b: byte): bool { b == 1 }

  function DecodeQuery(b: byte): Option<InfoQuery>
  {
    match b
    case 0x07 => Some(BySid)
    case 0x08 => Some(ByNumber)
    case 0x09 => Some(Following)
    case 0x0A => Some(Preceding)
    case _ => None
  }

  /** Recognises a command payload; any other byte string is refused. */
  function Decode(p: seq<byte>): Option<Command>
  {
    match |p|
    case 1 => DecodeShort(p[0])
    case 2 => DecodePair(p[0], p[1])
    case 3 => DecodeTriple(p[0], p[1], p[2])
    case 4 => DecodeQuad(p[0], p[1], p[2], p[3])
    case 5 => DecodeFive(p)
    case 6 => DecodeSix(p)
    case _ => None
  }

  function DecodeShort(op: byte): Option<Command>
  {
    if op == 0x31 then Some(GetRadioId)
    else if op == 0x43 then Some(SignalInfo)
    else None
  }

  function DecodePair(op: byte, b: byte): Option<Command>
  {
    if op == 0x4A && b == 0x43 then Some(DataPing)
    else if op == 0x4A && b == 0x44 then Some(DataFirmware)
    else if op == 0x0B then Some(SetLineLevel(b))
    else if op == 0x22 then Some(ExtInfo(b))
    else if op == 0x70 then Some(FirmwareVersion(b))
    else if !IsBool(b) then None
    else if op == 0x01 then Some(PowerDown(Flag(b)))
    else if op == 0x13 then Some(SetMute(Flag(b)))
    else if op == 0x42 then Some(SignalMonitor(Flag(b)))
    else if op == 0x4E then Some(ClockMonitor(Flag(b)))
    else if op == 0x60 then Some(DiagMonitor(Flag(b)))
    else None
  }

  function DecodeTriple(op: byte, a: byte, b: byte): Option<Command>
  {
    if !IsBool(b) then None
    else if op == 0x11 then Some(ChannelCancel(a, Flag(b)))
    else if op == 0x74 && a == 0x00 then Some(DirectListen(Flag(b)))
    else if op == 0x74 && a == 0x0B then Some(DirectDacMute(Flag(b)))
    else None
  }

  function DecodeQuad(op: byte, a: byte, b: byte, c: byte): Option<Command>
  {
    if op == 0x25 && DecodeQuery(a).Some? then Some(ChannelInfo(DecodeQuery(a).value, b, c))
    else if op == 0x4B && a == 0x09 && b == 0x00 && c == 0x01 then Some(GpsModule(true))
    else if op == 0x4B && a == 0x09 && b == 0x00 && c == 0x03 then Some(GpsModule(false))
    else if op == 0x74 && a == 0x02 && IsBool(b) && IsBool(c) then Some(DirectVoltage(Flag(b), Flag(c)))
    else None
  }

  function DecodeFive(p: seq<byte>): Option<Command>
    requires |p| == 5
  {
    if p[0] == 0x00 && IsBool(p[4]) then Some(PowerUp(p[1], p[2], p[3], Flag(p[4])))
    else if p[0] == 0x4A && p[1] == 0x10 && IsBool(p[3]) && IsBool(p[4]) then Some(DataChannel(p[2], Flag(p[3]), Flag(p[4])))
    else None
  }

  function DecodeSix(p: seq<byte>): Option<Command>
    requires |p| == 6
  {
    if p[0] == 0x10 && (p[1] == 0x01 || p[1] == 0x02) && IsBool(p[3]) && p[5] == 0x01 + p[3] then
      Some(ChangeChannel(p[1] == 0x01, p[2], Flag(p[3]), p[4]))
    else if (p[0] == 0x50 || p[0] == 0x4F) && IsBool(p[2]) && IsBool(p[3]) && IsBool(p[4]) && IsBool(p[5]) then
      Some(ChannelMonitor(p[0] == 0x4F, p[1], Flag(p[2]), Flag(p[3]), Flag(p[4]), Flag(p[5])))
    else None
  }

  /** Every command is recognised from its own payload. */
  lemma {:induction false} DecodeEncode(c: Command)
    ensures Decode(Encode(c)) == Some(c)
  {
    if c.GetRadioId? || c.SignalInfo? {
      assert Decode(Encode(c)) == DecodeShort(Encode(c)[0]);
    } else if |Encode(c)| == 2 {
      DecodeEncodePair(c);
    } else if |Encode(c)| == 3 {
      DecodeEncodeTriple(c);
    } else if |Encode(c)| == 4 {
      DecodeEncodeQuad(c);
    } else {
      DecodeEncodeLong(c);
    }
  }

  lemma DecodeEncodePair(c: Command)
    requires |Encode(c)| == 2
    ensures DecodePair(Encode(c)[0], Encode(c)[1]) == Some(c)
  {
  }

  lemma DecodeEncodeTriple(c: Command)
    requires |Encode(c)| == 3
    ensures DecodeTriple(Encode(c)[0], Encode(c)[1], Encode(c)[2]) == Some(c)
  {
  }

  lemma DecodeEncodeQuad(c: Command)
    requires |Encode(c)| == 4
    ensures DecodeQuad(Encode(c)[0], Encode(c)[1], Encode(c)[2], Encode(c)[3]) == Some(c)
  {
    if c.ChannelInfo? {
      assert DecodeQuery(QueryByte(c.query)) == Some(c.query);
    }
  }

  lemma DecodeEncodeLong(c: Command)
    requires |Encode(c)| >= 5
    ensures |Encode(c)| == 5 ==> DecodeFive(Encode(c)) == Some(c)
    ensures |Encode(c)| == 6 ==> DecodeSix(Encode(c)) == Some(c)
  {
  }


  /** Whatever the decoder recognises is exactly the payload of the command it names. */
  lemma {:induction false} EncodeDecode(p: seq<byte>)
    requires Decode(p).Some?
    ensures Encode(Decode(p).value) == p
  {
    match |p|
    case 1 => assert p == [p[0]];
    case 2 => EncodeDecodePair(p);
    case 3 => EncodeDecodeTriple(p);
    case 4 => EncodeDecodeQuad(p);
    case 5 => EncodeDecodeFive(p);
    case 6 => EncodeDecodeSix(p);
  }

  lemma EncodeDecodePair(p: seq<byte>)
    requires |p| == 2 && DecodePair(p[0], p[1]).Some?
    ensures Encode(DecodePair(p[0], p[1]).value) == p
  {
    assert p == [p[0], p[1]];
  }

  lemma EncodeDecodeTriple(p: seq<byte>)
    requires |p| == 3 && DecodeTriple(p[0], p[1], p[2]).Some?
    ensures Encode(DecodeTriple(p[0], p[1], p[2]).value) == p
  {
    assert p == [p[0], p[1], p[2]];
  }

  lemma EncodeDecodeQuad(p: seq<byte>)
    requires |p| == 4 && DecodeQuad(p[0], p[1], p[2], p[3]).Some?
    ensures Encode(DecodeQuad(p[0], p[1], p[2], p[3]).value) == p
  {
    if p[0] == 0x25 && DecodeQuery(p[1]).Some? {
      assert QueryByte(DecodeQuery(p[1]).value) == p[1];
    }
    assert p == [p[0], p[1], p[2], p[3]];
  }

  lemma EncodeDecodeFive(p: seq<byte>)
    requires |p| == 5 && DecodeFive(p).Some?
    ensures Encode(DecodeFive(p).value) == p
  {
    assert p == [p[0], p[1], p[2], p[3], p[4]];
  }

  lemma EncodeDecodeSix(p: seq<byte>)
    requires |p| == 6 && DecodeSix(p).Some?
    ensures Encode(DecodeSix(p).value) == p
  {
    if p[0] == 0x10 {
      assert Encode(DecodeSix(p).value) == [0x10, p[1], p[2], p[3], p[4], p[5]];
    } else {
      assert Encode(DecodeSix(p).value) == [p[0], p[1], p[2], p[3], p[4], p[5]];
    }
  }

  /** Two different commands never share a payload. */
  lemma EncodeInjective(c: Command, d: Command)
    requires Encode(c) == Encode(d)
    ensures c == d
  {
    DecodeEncode(c);
    DecodeEncode(d);
  }
}
