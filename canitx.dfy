/** CaniTX (utils/comm/canitx.py): one method per command. Each builds the
    payload, checks the channel range where the source does, and hands the
    payload to send, which frames it onto the session's serial connection.
    Python ints that reach bytes([...]) unchecked make it raise ValueError. */
module CaniTx {
  import opened Bytes
  import opened Framer
  import opened Session
  import opened Commands

  /** power_up: three label sizes (unchecked ints) and the loss-expected flag. */
  function PowerUpStep(s: State, chLbl: int, catLbl: int, titleLbl: int, lossExp: bool): (r: Step<seq<byte>>)
    ensures !(InByte(chLbl) && InByte(catLbl) && InByte(titleLbl)) ==> r == Step(s, Raised(ValueError))
  {
    if InByte(chLbl) && InByte(catLbl) && InByte(titleLbl) then
      Transmit(s, Encode(PowerUp(chLbl, catLbl, titleLbl, lossExp)))
    else Step(s, Raised(ValueError))
  }

  /** set_linevol: the gain byte is not range-checked. */
  function SetLineVolStep(s: State, db: int): (r: Step<seq<byte>>)
    ensures !InByte(db) ==> r == Step(s, Raised(ValueError))
  {
    if InByte(db) then Transmit(s, Encode(SetLineLevel(db))) else Step(s, Raised(ValueError))
  }

  /** change_channel: an out-of-range channel is refused before anything else;
      otherwise the session's channel number (or service ID) is set first and
      then the tune command is built, which may still raise on prg_type. */
  function ChangeChannelStep(s: State, channel: int, isSid: bool, data: bool, prgType: int): Step<seq<byte>>
  {
    if !InByte(channel) then Step(s, Ok([]))
    else
      var t := if isSid then s.(chSid := channel) else s.(chNum := channel);
      if InByte(prgType) then Transmit(t, Encode(ChangeChannel(isSid, channel, data, prgType)))
      else Step(t, Raised(ValueError))
  }

  /** channel_cancel: range-checked channel and the data flag. */
  function ChannelCancelStep(s: State, channel: int, data: bool): Step<seq<byte>>
  {
    if InByte(channel) then Transmit(s, Encode(ChannelCancel(channel, data))) else Step(s, Ok([]))
  }

  /** ext_info: range-checked channel. */
  function ExtInfoStep(s: State, channel: int): Step<seq<byte>>
  {
    if InByte(channel) then Transmit(s, Encode(ExtInfo(channel))) else Step(s, Ok([]))
  }

  /** channel_info: range-checked channel; 08 asks by number, 07 by service ID. */
  function ChannelInfoStep(s: State, channel: int, isSid: bool, prgType: int): Step<seq<byte>>
  {
    if !InByte(channel) then Step(s, Ok([]))
    else if !InByte(prgType) then Step(s, Raised(ValueError))
    else Transmit(s, Encode(ChannelInfo(if isSid then BySid else ByNumber, channel, prgType)))
  }

  /** chan_mon: range-checked channel; channel 0 switches every monitor flag off. */
  function ChanMonStep(s: State, channel: int, isDataOn: bool, servMon: bool, prgTypeMon: bool,
                       infMon: bool, extMon: bool): Step<seq<byte>>
  {
    if !InByte(channel) then Step(s, Ok([]))
    else
      var on := channel != 0;
      Transmit(s, Encode(ChannelMonitor(isDataOn, channel, servMon && on, prgTypeMon && on, infMon && on, extMon && on)))
  }

  /** firm_ver: the magic byte is not range-checked. */
  function FirmVerStep(s: State, magic: int): (r: Step<seq<byte>>)
    ensures !InByte(magic) ==> r == Step(s, Raised(ValueError))
  {
    if InByte(magic) then Transmit(s, Encode(FirmwareVersion(magic))) else Step(s, Raised(ValueError))
  }

  /** A channel outside 0..255 is refused: nothing is sent, nothing changes, the echo is empty. */
  lemma ChangeChannelOutOfRange(s: State, channel: int, isSid: bool, data: bool, prgType: int)
    requires !InByte(channel)
    ensures ChangeChannelStep(s, channel, isSid, data, prgType) == Step(s, Ok([]))
  {
  }

  /** A valid channel sets exactly one of ch_num and ch_sid, whichever the flag names. */
  lemma ChangeChannelSetsOne(s: State, channel: int, isSid: bool, data: bool, prgType: int)
    requires InByte(channel)
    ensures var t := ChangeChannelStep(s, channel, isSid, data, prgType).state;
            (if isSid then t.chSid == channel && t.chNum == s.chNum
             else t.chNum == channel && t.chSid == s.chSid) &&
            t.labels == s.labels && t.serial.inbound == s.serial.inbound
  {
  }

  /** With an open port and a byte-sized program type, the tune command
      10 (02 - is_sid) ch data prg (01 + data) is written and echoed. */
  lemma ChangeChannelSends(s: State, channel: int, isSid: bool, data: bool, prgType: int)
    requires s.serial.open && InByte(channel) && InByte(prgType)
    ensures var r := ChangeChannelStep(s, channel, isSid, data, prgType);
            var p: seq<byte> := [0x10, if isSid then 0x01 else 0x02, channel, B(data), prgType, if data then 0x02 else 0x01];
            r.result == Ok(p) && r.state.serial.sent == s.serial.sent + [Frame(p)]
  {
  }

  /** The documented example: tuning to audio channel 1. */
  lemma ChangeChannelExample(s: State)
    requires s.serial.open
    ensures ChangeChannelStep(s, 1, false, false, 0).result == Ok([0x10, 0x02, 0x01, 0x00, 0x00, 0x01])
  {
  }

  /** A program type that does not fit a byte raises only after the channel field was set. */
  lemma ChangeChannelBadProgramType(s: State, channel: int, prgType: int)
    requires InByte(channel) && !InByte(prgType)
    ensures ChangeChannelStep(s, channel, false, false, prgType) == Step(s.(chNum := channel), Raised(ValueError))
  {
  }

  /** channel_cancel returns empty and sends nothing for a channel outside
      0..255; otherwise it sends and echoes 11 ch data. */
  lemma ChannelCancelSends(s: State, channel: int, data: bool)
    ensures !InByte(channel) ==> ChannelCancelStep(s, channel, data) == Step(s, Ok([]))
    ensures s.serial.open && InByte(channel) ==>
            ChannelCancelStep(s, channel, data) ==
            Step(Wrote(s, Frame([0x11, channel, B(data)])), Ok([0x11, channel, B(data)]))
  {
  }

  /** Monitoring channel 0 sends four zero flags whatever was asked; the opcode is 50, or 4F with data on. */
  lemma ChanMonChannelZero(s: State, isDataOn: bool, a: bool, b: bool, c: bool, d: bool)
    requires s.serial.open
    ensures ChanMonStep(s, 0, isDataOn, a, b, c, d).result ==
            Ok([if isDataOn then 0x4F else 0x50, 0x00, 0x00, 0x00, 0x00, 0x00])
  {
  }

  /** On any other channel the four flags are sent as given. */
  lemma ChanMonFlags(s: State, channel: int, isDataOn: bool, a: bool, b: bool, c: bool, d: bool)
    requires s.serial.open && InByte(channel) && channel != 0
    ensures ChanMonStep(s, channel, isDataOn, a, b, c, d).result ==
            Ok([if isDataOn then 0x4F else 0x50, channel, B(a), B(b), B(c), B(d)])
  {
  }

  /** channel_info and ext_info: out-of-range channels send nothing; in range the layouts are 25 (08 - is_sid) ch prg and 22 ch. */
  lemma InfoRequests(s: State, channel: int, isSid: bool, prgType: int)
    ensures !InByte(channel) ==>
              (ChannelInfoStep(s, channel, isSid, prgType) == Step(s, Ok([])) &&
               ExtInfoStep(s, channel) == Step(s, Ok([])))
    ensures s.serial.open && InByte(channel) && InByte(prgType) ==>
              (ChannelInfoStep(s, channel, isSid, prgType).result == Ok([0x25, if isSid then 0x07 else 0x08, channel, prgType]) &&
               ExtInfoStep(s, channel).result == Ok([0x22, channel]))
  {
  }

  /** The default payloads: power_up 00 10 10 24 01, get_radioid 31, signal_info 43, firm_ver 70 05. */
  lemma DefaultPayloads()
    ensures Encode(PowerUp(16, 16, 36, true)) == [0x00, 0x10, 0x10, 0x24, 0x01]
    ensures Encode(GetRadioId) == [0x31] && Encode(SignalInfo) == [0x43]
    ensures Encode(FirmwareVersion(5)) == [0x70, 0x05]
  {
  }

  class CaniTx {
    const parent: CaniPy

    constructor (parent: CaniPy)
      ensures this.parent == parent
    {
      this.parent := parent;
    }

    /** send: the port check, the frame header ++ be16(len) ++ payload ++ tail,
        and the echo. It does what the older CaniPy.pcr_tx does, line for line,
        so it is that session method applied to the parent. */
    method Send(payload: seq<byte>) returns (r: Result<seq<byte>>)
      modifies parent
      ensures Step(parent.Snapshot(), r) == Transmit(old(parent.Snapshot()), payload)
    {
      r := parent.PcrTx(payload);
    }

    method PowerUp(chLbl: int, catLbl: int, titleLbl: int, lossExp: bool) returns (r: Result<seq<byte>>)
      modifies parent
      ensures Step(parent.Snapshot(), r) == PowerUpStep(old(parent.Snapshot()), chLbl, catLbl, titleLbl, lossExp)
    {
      if !(InByte(chLbl) && InByte(catLbl) && InByte(titleLbl)) {
        return Raised(ValueError);
      }
      r := Send([0x00, chLbl, catLbl, titleLbl, B(lossExp)]);
    }

    method PowerDown(pwrSav: bool) returns (r: Result<seq<byte>>)
      modifies parent
      ensures Step(parent.Snapshot(), r) == Transmit(old(parent.Snapshot()), Encode(Commands.PowerDown(pwrSav)))
    {
      r := Send([0x01, B(pwrSav)]);
    }

    method SetLineVol(db: int) returns (r: Result<seq<byte>>)
      modifies parent
      ensures Step(parent.Snapshot(), r) == SetLineVolStep(old(parent.Snapshot()), db)
    {
      if !InByte(db) {
        return Raised(ValueError);
      }
      r := Send([0x0B, db]);
    }

    method ChangeChannel(channel: int, isSid: bool, data: bool, prgType: int) returns (r: Result<seq<byte>>)
      modifies parent
      ensures Step(parent.Snapshot(), r) == ChangeChannelStep(old(parent.Snapshot()), channel, isSid, data, prgType)
    {
      if !InByte(channel) {
        return Ok([]);
      }
      if !isSid {
        parent.chNum := channel;
      } else {
        parent.chSid := channel;
      }
      if !InByte(prgType) {
        return Raised(ValueError);
      }
      var payload := [0x10, 0x02 - B(isSid), channel, B(data), prgType, 0x01 + B(data)];
      assert payload == Encode(Commands.ChangeChannel(isSid, channel, data, prgType));
      r := Send(payload);
    }

    method ChannelCancel(channel: int, data: bool) returns (r: Result<seq<byte>>)
      modifies parent
      ensures Step(parent.Snapshot(), r) == ChannelCancelStep(old(parent.Snapshot()), channel, data)
    {
      if !InByte(channel) {
        return Ok([]);
      }
      r := Send([0x11, channel, B(data)]);
    }

    method SetMute(mute: bool) returns (r: Result<seq<byte>>)
      modifies parent
      ensures Step(parent.Snapshot(), r) == Transmit(old(parent.Snapshot()), Encode(Commands.SetMute(mute)))
    {
      r := Send([0x13, B(mute)]);
    }

    method ExtInfo(channel: int) returns (r: Result<seq<byte>>)
      modifies parent
      ensures Step(parent.Snapshot(), r) == ExtInfoStep(old(parent.Snapshot()), channel)
    {
      if !InByte(channel) {
        return Ok([]);
      }
      r := Send([0x22, channel]);
    }

    method ChannelInfo(channel: int, isSid: bool, prgType: int) returns (r: Result<seq<byte>>)
      modifies parent
      ensures Step(parent.Snapshot(), r) == ChannelInfoStep(old(parent.Snapshot()), channel, isSid, prgType)
    {
      if !InByte(channel) {
        return Ok([]);
      }
      if !InByte(prgType) {
        return Raised(ValueError);
      }
      r := Send([0x25, 0x08 - B(isSid), channel, prgType]);
    }

    method GetRadioId() returns (r: Result<seq<byte>>)
      modifies parent
      ensures Step(parent.Snapshot(), r) == Transmit(old(parent.Snapshot()), Encode(Commands.GetRadioId))
    {
      r := Send([0x31]);
    }

    method SignalMon(toggle: bool) returns (r: Result<seq<byte>>)
      modifies parent
      ensures Step(parent.Snapshot(), r) == Transmit(old(parent.Snapshot()), Encode(SignalMonitor(toggle)))
    {
      r := Send([0x42, B(toggle)]);
    }

    method SignalInfo() returns (r: Result<seq<byte>>)
      modifies parent
      ensures Step(parent.Snapshot(), r) == Transmit(old(parent.Snapshot()), Encode(Commands.SignalInfo))
    {
      r := Send([0x43]);
    }

    method ClockMon(toggle: bool) returns (r: Result<seq<byte>>)
      modifies parent
      ensures Step(parent.Snapshot(), r) == Transmit(old(parent.Snapshot()), Encode(ClockMonitor(toggle)))
    {
      r := Send([0x4E, B(toggle)]);
    }

    method ChanMon(channel: int, isDataOn: bool, servMon: bool, prgTypeMon: bool, infMon: bool, extMon: bool)
      returns (r: Result<seq<byte>>)
      modifies parent
      ensures Step(parent.Snapshot(), r) ==
              ChanMonStep(old(parent.Snapshot()), channel, isDataOn, servMon, prgTypeMon, infMon, extMon)
    {
      if !InByte(channel) {
        return Ok([]);
      }
      var on := channel != 0;
      var payload := [0x50 - B(isDataOn), channel, B(servMon && on), B(prgTypeMon && on), B(infMon && on), B(extMon && on)];
      assert payload == Encode(ChannelMonitor(isDataOn, channel, servMon && on, prgTypeMon && on, infMon && on, extMon && on));
      r := Send(payload);
    }

    method DiagMon(toggle: bool) returns (r: Result<seq<byte>>)
      modifies parent
      ensures Step(parent.Snapshot(), r) == Transmit(old(parent.Snapshot()), Encode(DiagMonitor(toggle)))
    {
      r := Send([0x60, B(toggle)]);
    }

    method FirmVer(magic: int) returns (r: Result<seq<byte>>)
      modifies parent
      ensures Step(parent.Snapshot(), r) == FirmVerStep(old(parent.Snapshot()), magic)
    {
      if !InByte(magic) {
        return Raised(ValueError);
      }
      r := Send([0x70, magic]);
    }
  }
}
