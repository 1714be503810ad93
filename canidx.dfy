/** Commands for Direct receivers (CaniDX): listening mode, voltage and the DAC
    mute, each a single write through CaniTX.send, and the enable sequence. */
module CaniDx {
  import opened Bytes
  import opened Framer
  import opened Session
  import opened Commands
  import CaniTx

  /** enable: listening mode on, both voltage flags on, then the DAC unmuted, in
      that order; the echoes are dropped and no reply is awaited. */
  function EnableStep(s: State): State
  {
    var t1 := Transmit(s, Encode(DirectListen(true))).state;
    var t2 := Transmit(t1, Encode(DirectVoltage(true, true))).state;
    Transmit(t2, Encode(DirectDacMute(false))).state
  }

  /** On an open port enable writes exactly three frames, listen-on, voltage
      and DAC unmute, in that order, and changes nothing else. */
  lemma EnableSendsThree(s: State)
    requires s.serial.open
    ensures EnableStep(s) ==
            Wrote(Wrote(Wrote(s, Frame(Encode(DirectListen(true)))),
                        Frame(Encode(DirectVoltage(true, true)))),
                  Frame(Encode(DirectDacMute(false))))
  {
  }

  /** With no open port enable writes nothing at all. */
  lemma EnableClosedPort(s: State)
    requires !s.serial.open
    ensures EnableStep(s) == s
  {
  }

  /** The three payloads are 74 00 01, 74 02 01 01 and 74 0B 00, which the
      decoder reads as listen-on, both voltage flags on, and DAC unmuted. */
  lemma EnableCommands()
    ensures Encode(DirectListen(true)) == [0x74, 0x00, 0x01]
    ensures Encode(DirectVoltage(true, true)) == [0x74, 0x02, 0x01, 0x01]
    ensures Encode(DirectDacMute(false)) == [0x74, 0x0B, 0x00]
    ensures Decode([0x74, 0x00, 0x01]) == Some(DirectListen(true))
    ensures Decode([0x74, 0x02, 0x01, 0x01]) == Some(DirectVoltage(true, true))
    ensures Decode([0x74, 0x0B, 0x00]) == Some(DirectDacMute(false))
  {
    DecodeEncode(DirectListen(true));
    DecodeEncode(DirectVoltage(true, true));
    DecodeEncode(DirectDacMute(false));
  }

  class CaniDx {
    const parent: CaniPy
    const tx: CaniTx.CaniTx

    predicate Valid()
    {
      tx.parent == parent
    }

    constructor (parent: CaniPy, tx: CaniTx.CaniTx)
      requires tx.parent == parent
      ensures this.parent == parent && this.tx == tx && Valid()
    {
      this.parent := parent;
      this.tx := tx;
    }

    method Enable()
      requires Valid()
      modifies parent
      ensures parent.Snapshot() == EnableStep(old(parent.Snapshot()))
    {
      var _ := ComListen(true);
      var _ := Voltage(true, true);
      var _ := DacMute(false);
    }

    /** com_listen: 74 00 toggle; the echo of send is returned. */
    method ComListen(toggle: bool) returns (r: Result<seq<byte>>)
      requires Valid()
      modifies parent
      ensures Step(parent.Snapshot(), r) == Transmit(old(parent.Snapshot()), Encode(DirectListen(toggle)))
    {
      r := tx.Send([0x74, 0x00, B(toggle)]);
    }

    /** voltage: 74 02 toggle1 toggle2, both flags passed through as given. */
    method Voltage(toggle1: bool, toggle2: bool) returns (r: Result<seq<byte>>)
      requires Valid()
      modifies parent
      ensures Step(parent.Snapshot(), r) == Transmit(old(parent.Snapshot()), Encode(DirectVoltage(toggle1, toggle2)))
    {
      r := tx.Send([0x74, 0x02, B(toggle1), B(toggle2)]);
    }

    /** dac_mute: 74 0B mute. */
    method DacMute(mute: bool) returns (r: Result<seq<byte>>)
      requires Valid()
      modifies parent
      ensures Step(parent.Snapshot(), r) == Transmit(old(parent.Snapshot()), Encode(DirectDacMute(mute)))
    {
      r := tx.Send([0x74, 0x0B, B(mute)]);
    }
  }
}
