/** The session record shared by every part of the engine: the attributes of
    CaniPy (utils/canipy.py:27-43, set up at utils/canipy.py:88-104), the two
    flags the newer package adds (data_in_use, sat_datetime), the GUI flag,
    the serial port (open or not, the bytes waiting to be read, the frames
    written so far) and the log of notices shown to the user. */
module Session {
  import opened Bytes
  import opened Framer

  /** The Python exceptions the engine can raise on malformed input. */
  datatype PyError = IndexError | ValueError | OverflowError

  datatype Result<T> = Ok(value: T) | Raised(error: PyError)

  /** infoprint, warnprint, errorprint and the logprint lines the model keeps. */
  datatype Level = Info | Warning | Error | Log

  datatype Notice = Notice(level: Level, text: string)

  /** The satellite time stamp kept as sat_datetime (UTC). */
  datatype Clock = Clock(year: int, month: int, day: int, hour: int, minute: int, second: int)

  /** The display values (utils/canipy.py:29-35): the tuned channel's name,
      the two program lines, and its category. */
  datatype Labels = Labels(
    chName: seq<byte>,
    artistName: seq<byte>,
    titleName: seq<byte>,
    catName: seq<byte>,
    catId: int)

  const NoLabels := Labels([], [], [], [], 0)

  /** sig_strength, ant_strength, ter_strength (utils/canipy.py:37-39); -1 is inactive. */
  datatype Signal = Signal(sat: int, antenna: int, terrestrial: int)

  const NoSignal := Signal(-1, -1, -1)

  /** serial_conn: whether it is open, the bytes the radio has sent that are not
      read yet, and every frame written to it, oldest first. */
  datatype Serial = Serial(open: bool, inbound: seq<byte>, sent: seq<seq<byte>>)

  datatype State = State(
    verbose: bool,
    gui: bool,
    chNum: int,
    chSid: int,
    labels: Labels,
    signal: Signal,
    radioId: seq<byte>,
    directIdleFrames: int,
    dataInUse: bool,
    satDatetime: Option<Clock>,
    serial: Serial,
    notices: seq<Notice>)

  /** The state a new session starts in (utils/canipy.py:84-104). */
  function Initial(portOpen: bool, gui: bool, inbound: seq<byte>): State
  {
    State(false, gui, 0, 0, NoLabels, NoSignal, [], 0, false, None, Serial(portOpen, inbound, []), [])
  }

  /** A state change together with what the operation returned or raised. */
  datatype Step<T> = Step(state: State, result: Result<T>)

  /** The state after one more frame is written to the port. */
  function Wrote(s: State, frame: seq<byte>): State
  {
    s.(serial := s.serial.(sent := s.serial.sent + [frame]))
  }

  /** CaniTX.send / CaniPy.pcr_tx: with no open port nothing is written and the
      echo is empty; a payload whose length does not fit two bytes makes
      to_bytes raise; otherwise the framed payload is written and echoed. */
  function Transmit(s: State, payload: seq<byte>): (r: Step<seq<byte>>)
    ensures r.state == s || (|payload| < 0x1_0000 && r.state == Wrote(s, Frame(payload)))
    ensures r.state != s ==> r.result == Ok(payload)
  {
    if !s.serial.open then Step(s, Ok([]))
    else if |payload| >= 0x1_0000 then Step(s, Raised(OverflowError))
    else Step(Wrote(s, Frame(payload)), Ok(payload))
  }

  lemma TransmitClosedPort(s: State, payload: seq<byte>)
    requires !s.serial.open
    ensures Transmit(s, payload) == Step(s, Ok([]))
  {
  }

  lemma TransmitWritesFrame(s: State, payload: seq<byte>)
    requires s.serial.open && |payload| < 0x1_0000
    ensures Transmit(s, payload).result == Ok(payload)
    ensures Transmit(s, payload).state.serial.sent == s.serial.sent + [Header + Be16(|payload|) + payload + Tail]
  {
  }

  /** The worked example of pcr_tx: a radio-ID request goes out as 5A A5 00 01 31 ED ED. */
  lemma TransmitRadioIdExample(s: State)
    requires s.serial.open
    ensures Transmit(s, [0x31]).state.serial.sent == s.serial.sent + [[0x5A, 0xA5, 0x00, 0x01, 0x31, 0xED, 0xED]]
  {
    assert Be16(1) == [0x00, 0x01];
    assert Frame([0x31]) == [0x5A, 0xA5, 0x00, 0x01, 0x31, 0xED, 0xED];
  }

  /** Every frame that was written is read back as the payload it carried. */
  lemma TransmitThenDeframe(s: State, payload: seq<byte>, more: seq<byte>)
    requires s.serial.open && 1 <= |payload| < 0x1_0000
    ensures var sent := Transmit(s, payload).state.serial.sent;
            Deframe(true, sent[|sent| - 1] + more, false) == ReadResult(payload, more)
  {
    DeframeFrame(payload, more);
  }

  /** The command 25 q ch 00 that the next/previous channel-info shortcuts send;
      ch_num is a Python int, so a value outside 0..255 makes bytes() raise. */
  function ChannelQuery(s: State, query: byte): (r: Step<seq<byte>>)
    ensures !InByte(s.chNum) ==> r == Step(s, Raised(ValueError))
    ensures InByte(s.chNum) ==> r == Transmit(s, [0x25, query, s.chNum, 0x00])
  {
    if InByte(s.chNum) then Transmit(s, [0x25, query, s.chNum, 0x00]) else Step(s, Raised(ValueError))
  }

  function WithNotice(s: State, level: Level, text: string): (t: State)
    ensures t.notices == s.notices + [Notice(level, text)]
    ensures t.(notices := s.notices) == s
  {
    s.(notices := s.notices + [Notice(level, text)])
  }

  /** reset_display: the displayed channel, labels, category and signal levels
      go back to their defaults. */
  function DisplayDefaults(s: State): (t: State)
    ensures t.chNum == 0 && t.chSid == 0 && t.labels == NoLabels && t.signal == NoSignal
  {
    s.(chNum := 0, chSid := 0, labels := NoLabels, signal := NoSignal)
  }

  /** After a reset the display is that of a new session on the same port; the
      radio ID, the counters, the data flag, the clock, the port and the logs stay. */
  lemma DisplayDefaultsRestoresInitial(s: State)
    ensures DisplayDefaults(s) == Initial(s.serial.open, s.gui, s.serial.inbound).(
              verbose := s.verbose, radioId := s.radioId,
              directIdleFrames := s.directIdleFrames, dataInUse := s.dataInUse,
              satDatetime := s.satDatetime, serial := s.serial, notices := s.notices)
  {
  }

  lemma DisplayDefaultsIdempotent(s: State)
    ensures DisplayDefaults(DisplayDefaults(s)) == DisplayDefaults(s)
  {
  }

  /** The CaniPy session object. The display labels, the three signal levels
      and the serial connection are each held as one value. */
  class CaniPy {
    var verbose: bool
    var gui: bool
    var chNum: int
    var chSid: int
    var labels: Labels
    var signal: Signal
    var radioId: seq<byte>
    var directIdleFrames: int
    var dataInUse: bool
    var satDatetime: Option<Clock>
    var serial: Serial
    var notices: seq<Notice>

    function Snapshot(): State
      reads this
    {
      State(verbose, gui, chNum, chSid, labels, signal, radioId, directIdleFrames, dataInUse,
            satDatetime, serial, notices)
    }

    /** CaniPy.__init__: whether the serial port could be opened is an input. */
    constructor (portOpen: bool, gui: bool, inbound: seq<byte>)
      ensures Snapshot() == Initial(portOpen, gui, inbound)
      ensures chNum == 0 && chSid == 0 && labels == Labels([], [], [], [], 0) && radioId == []
      ensures signal == Signal(-1, -1, -1) && directIdleFrames == 0
      ensures !verbose && serial.sent == [] && notices == []
    {
      this.verbose := false;
      this.gui := gui;
      this.chNum := 0;
      this.chSid := 0;
      this.labels := NoLabels;
      this.signal := NoSignal;
      this.radioId := [];
      this.directIdleFrames := 0;
      this.dataInUse := false;
      this.satDatetime := None;
      this.serial := Serial(portOpen, inbound, []);
      this.notices := [];
    }

    /** CaniPy.pcr_tx, and the transport write behind CaniTX.send. */
    method PcrTx(payload: seq<byte>) returns (r: Result<seq<byte>>)
      modifies this
      ensures Step(Snapshot(), r) == Transmit(old(Snapshot()), payload)
    {
      if !serial.open {
        return Ok([]);
      }
      if |payload| >= 0x1_0000 {
        return Raised(OverflowError);
      }
      var length := Be16(|payload|);
      serial := serial.(sent := serial.sent + [Header + length + payload + Tail]);
      r := Ok(payload);
    }

    /** The next_channel_info shortcut: 25 09 ch_num 00. */
    method NextChannelInfo() returns (r: Result<seq<byte>>)
      modifies this
      ensures Step(Snapshot(), r) == ChannelQuery(old(Snapshot()), 0x09)
    {
      if !InByte(chNum) {
        return Raised(ValueError);
      }
      r := PcrTx([0x25, 0x09, chNum, 0x00]);
    }

    /** The prev_channel_info shortcut: 25 0A ch_num 00. */
    method PrevChannelInfo() returns (r: Result<seq<byte>>)
      modifies this
      ensures Step(Snapshot(), r) == ChannelQuery(old(Snapshot()), 0x0A)
    {
      if !InByte(chNum) {
        return Raised(ValueError);
      }
      r := PcrTx([0x25, 0x0A, chNum, 0x00]);
    }

    /** Appends one line to the notice log (infoprint, warnprint, errorprint, logprint). */
    method Notify(level: Level, text: string)
      modifies this
      ensures Snapshot() == WithNotice(old(Snapshot()), level, text)
    {
      notices := notices + [Notice(level, text)];
    }

    /** Replaces the displayed labels. */
    method SetLabels(l: Labels)
      modifies this
      ensures Snapshot() == old(Snapshot()).(labels := l)
    {
      labels := l;
    }

    /** reset_display, as an abstract return to the display defaults. */
    method ResetDisplay()
      modifies this
      ensures Snapshot() == DisplayDefaults(old(Snapshot()))
    {
      chNum, chSid, labels, signal := 0, 0, NoLabels, NoSignal;
    }
  }
}
