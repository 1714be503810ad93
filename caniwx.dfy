/** Commands for data receivers (CaniWX): tuning the data channel, stopping the
    data download, the ping and version requests, and the GPS module switch. */
module CaniWx {
  import opened Bytes
  import opened Framer
  import opened Session
  import opened Commands
  import CaniTx

  /** change_datachan: a service ID outside 0..255 is refused with an empty echo
      and nothing sent; otherwise 4A 10 sid flag1 flag2 is sent. */
  function ChangeDatachanStep(s: State, sid: int, flagOne: bool, flagTwo: bool): Step<seq<byte>>
  {
    if InByte(sid) then Transmit(s, Encode(DataChannel(sid, flagOne, flagTwo))) else Step(s, Ok([]))
  }

  /** The data_stop shortcut: the data channel FF with both flags set. */
  function DataStopStep(s: State): Step<seq<byte>>
  {
    ChangeDatachanStep(s, 0xFF, true, true)
  }

  lemma ChangeDatachanRejects(s: State, sid: int, flagOne: bool, flagTwo: bool)
    requires !InByte(sid)
    ensures ChangeDatachanStep(s, sid, flagOne, flagTwo) == Step(s, Ok([]))
  {
  }

  /** Every accepted service ID goes out as 4A 10 sid f1 f2 and is echoed. */
  lemma ChangeDatachanSends(s: State, sid: int, flagOne: bool, flagTwo: bool)
    requires InByte(sid) && s.serial.open
    ensures ChangeDatachanStep(s, sid, flagOne, flagTwo) ==
            Step(Wrote(s, Frame([0x4A, 0x10, sid, B(flagOne), B(flagTwo)])),
                 Ok([0x4A, 0x10, sid, B(flagOne), B(flagTwo)]))
  {
  }

  /** Tuning the data service 240 with the default flags sends 4A 10 F0 00 00. */
  lemma ChangeDatachanExample(s: State)
    requires s.serial.open
    ensures ChangeDatachanStep(s, 240, false, false).state.serial.sent ==
            s.serial.sent + [Frame([0x4A, 0x10, 0xF0, 0x00, 0x00])]
  {
    ChangeDatachanSends(s, 240, false, false);
  }

  /** data_stop sends 4A 10 FF 01 01, which the decoder reads as data channel FF with both flags. */
  lemma DataStopSends(s: State)
    requires s.serial.open
    ensures DataStopStep(s).state.serial.sent == s.serial.sent + [Frame([0x4A, 0x10, 0xFF, 0x01, 0x01])]
    ensures Decode([0x4A, 0x10, 0xFF, 0x01, 0x01]) == Some(DataChannel(0xFF, true, true))
  {
    ChangeDatachanSends(s, 0xFF, true, true);
    DecodeEncode(DataChannel(0xFF, true, true));
  }

  /** wrgps_conn ends in 01 to connect the GPS module and in 03 to disconnect it,
      and the two payloads are told apart by the decoder. */
  lemma GpsModuleToggle(toggle: bool)
    ensures Encode(GpsModule(toggle)) == [0x4B, 0x09, 0x00, if toggle then 0x01 else 0x03]
    ensures Decode([0x4B, 0x09, 0x00, if toggle then 0x01 else 0x03]) == Some(GpsModule(toggle))
  {
    DecodeEncode(GpsModule(toggle));
  }

  class CaniWx {
    const parent: CaniPy
    const tx: CaniTx.CaniTx

    predicate Valid()
    {
      tx.parent == parent
    }

    constructor (parent: CaniPy, tx: CaniTx.CaniTx)
      requires tx.parent == parent
      ensures this.parent == parent && this.tx == tx && Valid()
    {
      this.parent := parent;
      this.tx := tx;
    }

    method ChangeDatachan(sid: int, flagOne: bool, flagTwo: bool) returns (r: Result<seq<byte>>)
      requires Valid()
      modifies parent
      ensures Step(parent.Snapshot(), r) == ChangeDatachanStep(old(parent.Snapshot()), sid, flagOne, flagTwo)
    {
      if !InByte(sid) {
        return Ok([]);
      }
      r := tx.Send([0x4A, 0x10, sid, B(flagOne), B(flagTwo)]);
    }

    method DataStop() returns (r: Result<seq<byte>>)
      requires Valid()
      modifies parent
      ensures Step(parent.Snapshot(), r) == DataStopStep(old(parent.Snapshot()))
    {
      r := ChangeDatachan(0xFF, true, true);
    }

    /** ping: 4A 43; the radio answers with CA 43. */
    method Ping() returns (r: Result<seq<byte>>)
      requires Valid()
      modifies parent
      ensures Step(parent.Snapshot(), r) == Transmit(old(parent.Snapshot()), Encode(DataPing))
    {
      r := tx.Send([0x4A, 0x43]);
    }

    /** firm_ver: 4A 44, the data receiver's version request. */
    method FirmVer() returns (r: Result<seq<byte>>)
      requires Valid()
      modifies parent
      ensures Step(parent.Snapshot(), r) == Transmit(old(parent.Snapshot()), Encode(DataFirmware))
    {
      r := tx.Send([0x4A, 0x44]);
    }

    /** wrgps_conn: 4B 09 00 01 to connect the GPS module, 4B 09 00 03 to disconnect it. */
    method WrgpsConn(toggle: bool) returns (r: Result<seq<byte>>)
      requires Valid()
      modifies parent
      ensures Step(parent.Snapshot(), r) == Transmit(old(parent.Snapshot()), Encode(GpsModule(toggle)))
    {
      r := tx.Send([0x4B, 0x09, 0x00, if toggle then 0x01 else 0x03]);
    }
  }
}
