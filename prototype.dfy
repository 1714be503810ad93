/** The two early prototypes, CaniPy in canipy/canipy.py and PCRdevice in
    testbed/testbed.py. Their command methods are the same line for line, so
    one class models both: each builds a payload with bytes([...]) (which
    raises ValueError on an int outside 0..255) and writes it framed to a port
    opened by the constructor, with no check and no reply. The testbed's menu
    reads numbers through get_option. */
module Prototype {
  import opened Bytes
  import opened Framer
  import opened Commands
  import Session

  type Result<T> = Session.Result<T>

  /** pcr_tx: the frames written so far and the result of one more write. A
      payload too long for the two-byte length makes to_bytes raise first. */
  function Tx(sent: seq<seq<byte>>, payload: seq<byte>): (r: (seq<seq<byte>>, Result<()>))
    ensures r.1.Ok? <==> |payload| < 0x1_0000
    ensures r.1.Ok? ==> r.0 == sent + [Header + Be16(|payload|) + payload + Tail]
    ensures r.1.Raised? ==> r.0 == sent && r.1.error == Session.OverflowError
  {
    if |payload| < 0x1_0000 then (sent + [Frame(payload)], Session.Ok(()))
    else (sent, Session.Raised(Session.OverflowError))
  }

  /** A method whose payload holds unchecked ints: bytes([...]) raises before
      anything is written when one of them is out of range. */
  function TxChecked(sent: seq<seq<byte>>, inRange: bool, payload: seq<byte>): (r: (seq<seq<byte>>, Result<()>))
    ensures !inRange ==> r == (sent, Session.Raised(Session.ValueError))
    ensures inRange && |payload| < 0x1_0000 ==> r == (sent + [Frame(payload)], Session.Ok(()))
  {
    if inRange then Tx(sent, payload) else (sent, Session.Raised(Session.ValueError))
  }

  /** change_channel(channel, data): 10, then 01 for a data channel or 02
      otherwise, the channel, and the fixed 00 00 01. */
  function TunePayload(channel: byte, data: bool): (p: seq<byte>)
    ensures |p| == 6 && p[0] == 0x10 && p[2] == channel && p[3..] == [0x00, 0x00, 0x01]
    ensures p[1] == (if data then 0x01 else 0x02)
  {
    [0x10, if data then 0x01 else 0x02, channel, 0x00, 0x00, 0x01]
  }

  /** The prototype's data tune is the newer encoder's tune by service ID, and
      its audio tune the tune by number, both without the data route and with
      program type 0: the decoder reads it back as that command. */
  lemma TunePayloadIsChangeChannel(channel: byte, data: bool)
    ensures TunePayload(channel, data) == Encode(ChangeChannel(data, channel, false, 0))
    ensures Decode(TunePayload(channel, data)) == Some(ChangeChannel(data, channel, false, 0))
  {
    DecodeEncode(ChangeChannel(data, channel, false, 0));
  }

  /** The payloads each method sends, named by the catalogue command they are. */
  lemma PrototypePayloads(ch: byte, mute: bool, save: bool)
    ensures Encode(PowerUp(16, 16, 24, true)) == [0x00, 0x10, 0x10, 0x18, 0x01]
    ensures Encode(PowerDown(save)) == [0x01, if save then 0x01 else 0x00]
    ensures Encode(ChannelInfo(ByNumber, ch, 0)) == [0x25, 0x08, ch, 0x00]
    ensures Encode(ExtInfo(ch)) == [0x22, ch]
    ensures Encode(GetRadioId) == [0x31] && Encode(SignalInfo) == [0x43]
    ensures Encode(SetMute(mute)) == [0x13, if mute then 0x01 else 0x00]
    ensures Encode(DataPing) == [0x4A, 0x43] && Encode(DataFirmware) == [0x4A, 0x44]
  {
  }

  /** The prototypes' default title label is 24 (18 hex) where the newer
      power_up asks for 36 (24 hex): the two default payloads differ only there. */
  lemma PowerUpDefaultsDiffer()
    ensures Encode(PowerUp(16, 16, 24, true))[..3] == Encode(PowerUp(16, 16, 36, true))[..3]
    ensures Encode(PowerUp(16, 16, 24, true))[3] == 0x18 && Encode(PowerUp(16, 16, 36, true))[3] == 0x24
    ensures Encode(PowerUp(16, 16, 24, true))[4..] == Encode(PowerUp(16, 16, 36, true))[4..]
  {
  }

  /** direct_enable: the frames of 74 00 01, 74 02 01 01 and 74 0B 00, in order. */
  function DirectEnableFrames(): (fs: seq<seq<byte>>)
    ensures |fs| == 3
    ensures fs[0] == [0x5A, 0xA5, 0x00, 0x03, 0x74, 0x00, 0x01, 0xED, 0xED]
    ensures fs[1] == [0x5A, 0xA5, 0x00, 0x04, 0x74, 0x02, 0x01, 0x01, 0xED, 0xED]
    ensures fs[2] == [0x5A, 0xA5, 0x00, 0x03, 0x74, 0x0B, 0x00, 0xED, 0xED]
  {
    FrameOfThree([0x74, 0x00, 0x01]);
    FrameOfFour([0x74, 0x02, 0x01, 0x01]);
    FrameOfThree([0x74, 0x0B, 0x00]);
    [Frame([0x74, 0x00, 0x01]), Frame([0x74, 0x02, 0x01, 0x01]), Frame([0x74, 0x0B, 0x00])]
  }

  /** The frame of a three-byte payload, byte by byte. */
  lemma FrameOfThree(p: seq<byte>)
    requires |p| == 3
    ensures Frame(p) == [0x5A, 0xA5, 0x00, 0x03, p[0], p[1], p[2], 0xED, 0xED]
  {
  }

  /** The frame of a four-byte payload, byte by byte. */
  lemma FrameOfFour(p: seq<byte>)
    requires |p| == 4
    ensures Frame(p) == [0x5A, 0xA5, 0x00, 0x04, p[0], p[1], p[2], p[3], 0xED, 0xED]
  {
  }

  /** Each direct_enable frame reads back, through the reader's deframing, as
      the command the newer CaniDX.enable sends in the same position. */
  lemma DirectEnableMatchesNewer(more: seq<byte>)
    ensures Deframe(true, DirectEnableFrames()[0] + more, false) == ReadResult(Encode(DirectListen(true)), more)
    ensures Deframe(true, DirectEnableFrames()[1] + more, false) == ReadResult(Encode(DirectVoltage(true, true)), more)
    ensures Deframe(true, DirectEnableFrames()[2] + more, false) == ReadResult(Encode(DirectDacMute(false)), more)
  {
    DirectPayloads();
    DeframeFrame([0x74, 0x00, 0x01], more);
    DeframeFrame([0x74, 0x02, 0x01, 0x01], more);
    DeframeFrame([0x74, 0x0B, 0x00], more);
  }

  /** The payloads the newer CaniDX.enable builds for the same three commands. */
  lemma DirectPayloads()
    ensures Encode(DirectListen(true)) == [0x74, 0x00, 0x01]
    ensures Encode(DirectVoltage(true, true)) == [0x74, 0x02, 0x01, 0x01]
    ensures Encode(DirectDacMute(false)) == [0x74, 0x0B, 0x00]
  {
  }

  /** Every frame pcr_tx writes for a non-empty payload deframes back to it. */
  lemma TxRoundTrip(sent: seq<seq<byte>>, payload: seq<byte>, more: seq<byte>)
    requires 1 <= |payload| < 0x1_0000
    ensures var w := Tx(sent, payload).0;
            |w| == |sent| + 1 && Deframe(true, w[|sent|] + more, false) == ReadResult(payload, more)
  {
    DeframeFrame(payload, more);
  }

  /** The whitespace str.strip() removes, on the latin-1 range of characters. */
  predicate IsSpaceChar(c: char)
  {
    (0x09 <= c as int <= 0x0D) || (0x1C <= c as int <= 0x20) || c as int == 0x85 || c as int == 0xA0
  }

  function StripChars(s: string): (r: string)
    ensures |r| <= |s|
    ensures r == [] || (!IsSpaceChar(r[0]) && !IsSpaceChar(r[|r| - 1]))
  {
    if s == [] then []
    else if IsSpaceChar(s[0]) then StripChars(s[1..])
    else if IsSpaceChar(s[|s| - 1]) then StripChars(s[..|s| - 1])
    else s
  }

  /** str.isdigit() on ASCII: non-empty and every character a digit. */
  predicate AllDigits(s: string)
  {
    s != [] && forall k :: 0 <= k < |s| ==> IsDigit(s[k])
  }

  /** get_option: the stripped line read as a number when it is all digits and
      below 256, and -1 for anything else. */
  function GetOption(line: string): (r: int)
    ensures -1 <= r < 256
    ensures r != -1 ==> AllDigits(StripChars(line)) && r == DigitsValue(StripChars(line))
  {
    var choice := StripChars(line);
    if AllDigits(choice) && 0 <= DigitsValue(choice) < 256 then DigitsValue(choice) else -1
  }

  lemma {:induction false} DigitsValueNonNegative(s: string)
    requires forall k :: 0 <= k < |s| ==> IsDigit(s[k])
    ensures DigitsValue(s) >= 0
  {
    if s != [] {
      DigitsValueNonNegative(s[..|s| - 1]);
    }
  }

  /** A digit string is rejected exactly when its value is 256 or more. */
  lemma GetOptionDigits(line: string)
    requires AllDigits(StripChars(line))
    ensures GetOption(line) == (if DigitsValue(StripChars(line)) < 256 then DigitsValue(StripChars(line)) else -1)
  {
    DigitsValueNonNegative(StripChars(line));
  }

  /** Typing any option 0..255 in decimal, with surrounding blanks, selects it. */
  lemma {:induction false} GetOptionReadsDecimal(n: nat, pre: nat, post: nat)
    requires n < 256
    ensures GetOption(seq(pre, _ => ' ') + Decimal(n) + seq(post, _ => ' ')) == n
    decreases pre + post
  {
    var d := Decimal(n);
    DecimalDigits(n);
    DecimalValue(n);
    var line := seq(pre, _ => ' ') + d + seq(post, _ => ' ');
    if pre > 0 {
      assert line[0] == ' ';
      assert line[1..] == seq(pre - 1, _ => ' ') + d + seq(post, _ => ' ');
      GetOptionReadsDecimal(n, pre - 1, post);
    } else if post > 0 {
      assert line[0] == d[0] && !IsSpaceChar(d[0]);
      assert line[|line| - 1] == ' ';
      assert line[..|line| - 1] == seq(pre, _ => ' ') + d + seq(post - 1, _ => ' ');
      GetOptionReadsDecimal(n, pre, post - 1);
    } else {
      assert line == d;
      assert !IsSpaceChar(d[0]) && !IsSpaceChar(d[|d| - 1]);
    }
  }

  /** A line with any non-digit left after stripping is refused. */
  lemma GetOptionRefusesNonDigits(line: string, k: nat)
    requires k < |StripChars(line)| && !IsDigit(StripChars(line)[k])
    ensures GetOption(line) == -1
  {
  }

  /** The prototype device: the port opened by the constructor and the frames
      written to it, oldest first. */
  class PcrDevice {
    var sent: seq<seq<byte>>

    constructor ()
      ensures sent == []
    {
      sent := [];
    }

    method PcrTx(payload: seq<byte>) returns (r: Result<()>)
      modifies this
      ensures (sent, r) == Tx(old(sent), payload)
    {
      if |payload| >= 0x1_0000 {
        return Session.Raised(Session.OverflowError);
      }
      var length := Be16(|payload|);
      sent := sent + [Header + length + payload + Tail];
      r := Session.Ok(());
    }

    method PowerUp(chLbl: int, catLbl: int, titleLbl: int, lossExp: bool) returns (r: Result<()>)
      modifies this
      ensures var ok := InByte(chLbl) && InByte(catLbl) && InByte(titleLbl);
              (sent, r) == TxChecked(old(sent), ok, if ok then Encode(Commands.PowerUp(chLbl, catLbl, titleLbl, lossExp)) else [])
    {
      if !(InByte(chLbl) && InByte(catLbl) && InByte(titleLbl)) {
        return Session.Raised(Session.ValueError);
      }
      r := PcrTx([0x00, chLbl, catLbl, titleLbl, B(lossExp)]);
    }

    method PowerDown(pwrSav: bool) returns (r: Result<()>)
      modifies this
      ensures (sent, r) == Tx(old(sent), Encode(Commands.PowerDown(pwrSav)))
    {
      r := PcrTx([0x01, B(pwrSav)]);
    }

    method ChangeChannel(channel: int, data: bool) returns (r: Result<()>)
      modifies this
      ensures (sent, r) == TxChecked(old(sent), InByte(channel), if InByte(channel) then TunePayload(channel, data) else [])
    {
      if !InByte(channel) {
        return Session.Raised(Session.ValueError);
      }
      r := PcrTx([0x10, if data then 0x01 else 0x02, channel, 0x00, 0x00, 0x01]);
    }

    method ChannelInfo(channel: int) returns (r: Result<()>)
      modifies this
      ensures (sent, r) == TxChecked(old(sent), InByte(channel),
                                     if InByte(channel) then Encode(Commands.ChannelInfo(ByNumber, channel, 0)) else [])
    {
      if !InByte(channel) {
        return Session.Raised(Session.ValueError);
      }
      r := PcrTx([0x25, 0x08, channel, 0x00]);
    }

    method AudioInfo(channel: int) returns (r: Result<()>)
      modifies this
      ensures (sent, r) == TxChecked(old(sent), InByte(channel), if InByte(channel) then Encode(ExtInfo(channel)) else [])
    {
      if !InByte(channel) {
        return Session.Raised(Session.ValueError);
      }
      r := PcrTx([0x22, channel]);
    }

    method RadioId() returns (r: Result<()>)
      modifies this
      ensures (sent, r) == Tx(old(sent), Encode(GetRadioId))
    {
      r := PcrTx([0x31]);
    }

    method SignalInfo() returns (r: Result<()>)
      modifies this
      ensures (sent, r) == Tx(old(sent), Encode(Commands.SignalInfo))
    {
      r := PcrTx([0x43]);
    }

    method SetMute(mute: bool) returns (r: Result<()>)
      modifies this
      ensures (sent, r) == Tx(old(sent), Encode(Commands.SetMute(mute)))
    {
      r := PcrTx([0x13, B(mute)]);
    }

    method PingRadio() returns (r: Result<()>)
      modifies this
      ensures (sent, r) == Tx(old(sent), Encode(DataPing))
    {
      r := PcrTx([0x4A, 0x43]);
    }

    method GetFirmver() returns (r: Result<()>)
      modifies this
      ensures (sent, r) == Tx(old(sent), Encode(DataFirmware))
    {
      r := PcrTx([0x4A, 0x44]);
    }

    /** direct_enable: three writes in order; the sleeps between them are timing only. */
    method DirectEnable()
      modifies this
      ensures sent == old(sent) + DirectEnableFrames()
    {
      var _ := PcrTx([0x74, 0x00, 0x01]);
      var _ := PcrTx([0x74, 0x02, 0x01, 0x01]);
      var _ := PcrTx([0x74, 0x0B, 0x00]);
    }
  }
}
