/** CaniConductor.go (utils/comm/caniconductor.py:11-280): the response
    dispatcher. It switches on the response code in byte 0, updates the
    session, issues follow-up commands through CaniTX and hands
    length-checked reports to CaniRX. Reading past the end of a short
    payload raises IndexError, leaving whatever was already changed. */
module CaniConductor {
  import opened Bytes
  import opened Framer
  import opened Session
  import opened Commands
  import CaniTx
  import CaniRx

  function Done(s: State): Step<()> { Step(s, Ok(())) }

  function TooShort(s: State): Step<()> { Step(s, Raised(IndexError)) }

  function Info(s: State, text: string): Step<()> { Done(WithNotice(s, Level.Info, text)) }

  /** The 8B line-level report: bytes up to 60 are attenuation, higher ones gain. */
  function LineLevelDb(b: byte): (db: int)
    ensures -96 <= db <= 159
    ensures db <= 0 <==> b <= 0x60
  {
    if b <= 0x60 then -(b as int) else b as int - 0x60
  }

  /** The byte that reports a given level; the partner of LineLevelDb. */
  function LineLevelByte(db: int): (b: byte)
    requires -96 <= db <= 159
  {
    if db <= 0 then -db else db + 0x60
  }

  lemma LineLevelRoundTrip(b: byte, db: int)
    requires -96 <= db <= 159
    ensures LineLevelByte(LineLevelDb(b)) == b
    ensures LineLevelDb(LineLevelByte(db)) == db
  {
  }

  /** 80: the radio has started. */
  function OnStartup(s: State, p: seq<byte>): State
  {
    var t := CaniRx.StartupReport(WithNotice(s, Level.Info, "Radio started"), p);
    if t.gui then
      Transmit(Transmit(t, Encode(ClockMonitor(true))).state, Encode(SignalMonitor(true))).state
    else t
  }

  /** 81: the radio has powered down; the display is reset before anything is read. */
  function OnPowerOff(s: State, p: seq<byte>): Step<()>
  {
    var t := DisplayDefaults(s);
    if |p| < 3 then TooShort(t)
    else
      var u := if !(p[1] == 0x01 && p[2] == 0x00) then WithNotice(t, Warning, CaniRx.FetchStatus(p)) else t;
      Info(u, "Radio is now powered off\nGoodnight!")
  }

  /** 8B: the line level was set. */
  function OnLineLevel(s: State, p: seq<byte>): Step<()>
  {
    if |p| < 4 then TooShort(s)
    else Done(WithNotice(s, Log, "Line level set to " + IntToString(LineLevelDb(p[3])) + "dB"))
  }

  /** 90: a tune report with service ID in byte 3, channel in byte 4 and the data flag in byte 5. */
  function OnTune(s: State, p: seq<byte>): Step<()>
  {
    if |p| < 6 then TooShort(s)
    else
      var t := if p[5] != 0 then s.(dataInUse := true) else s;
      if p[1] == 0x04 && p[2] == 0x0E then Done(Transmit(t, Encode(GetRadioId)).state)
      else if !(p[1] == 0x01 && p[2] == 0x00) then Done(WithNotice(t, Warning, CaniRx.FetchStatus(p)))
      else Done(Tuned(t, p[3], p[4]))
  }

  /** The 90 report's 01 00 path: the reported channel becomes current, the
      labels are cleared and its information is requested. */
  function Tuned(s: State, sid: byte, ch: byte): State
  {
    var u := s.(chSid := sid, chNum := ch, labels := NoLabels);
    var u1 := CaniTx.ChannelInfoStep(u, ch, false, 0).state;
    var u2 := CaniTx.ExtInfoStep(u1, ch).state;
    if u2.gui then CaniTx.ChanMonStep(u2, ch, false, true, true, true, true).state else u2
  }

  /** 91: a tune was cancelled; byte 4 says whether byte 3 is a service ID or a channel. */
  function OnTuneCancel(s: State, p: seq<byte>): Step<()>
  {
    if |p| < 5 then TooShort(s)
    else if p[4] != 0 then Done(s.(chSid := p[3]))
    else Done(s.(chNum := p[3]))
  }

  /** A5: channel information, unless it is the data-channel or radio-ID notice. */
  function OnChannelInfo(s: State, p: seq<byte>): Step<()>
  {
    if |p| < 3 then TooShort(s)
    else if p[1] == 0x02 && p[2] == 0x04 then Info(s, "Data download started")
    else if p[1] == 0x04 && p[2] == 0x0E then Done(Transmit(s, Encode(GetRadioId)).state)
    else Done(CaniRx.ChannelReport(s, p))
  }

  /** B1: the radio ID, in bytes 4..11 of a 12-byte report. */
  function OnRadioId(s: State, p: seq<byte>): State
  {
    if |p| != 12 then WithNotice(s, Log, "Invalid Radio ID length")
    else WithNotice(s.(radioId := p[4..12]), Level.Info, "Radio ID\n\n" + Latin1(p[4..12]))
  }

  /** CA: data-service replies; only the download-stopped, ping and version replies are shown. */
  function OnDataReply(s: State, p: seq<byte>): Step<()>
  {
    if |p| < 2 then TooShort(s)
    else if p[1] == 0x40 then
      if |p| < 3 then TooShort(s)
      else if |p| < 5 then TooShort(s)
      else if p[2] == 0xFF then Done(s)
      else if p[4] == 0xFF then Info(s, "Data download stopped")
      else Done(s)
    else if p[1] == 0x43 then Info(s, "WX ping received")
    else if p[1] == 0x64 then Info(s, "WX Version\n\n" + Latin1(RStripNul(p[2..])))
    else Done(s)
  }

  /** D1: the tuned channel's name, when byte 2 is 1 and the channel number matches. */
  function OnChannelName(s: State, p: seq<byte>): Step<()>
  {
    if |p| < 3 then TooShort(s)
    else if p[2] == 0x01 && p[1] == s.chNum then Done(s.(labels := s.labels.(chName := Strip(Slice(p, 3, 19)))))
    else Done(s)
  }

  /** D2: the tuned channel's category, when byte 3 is 1 and the channel number matches. */
  function OnCategory(s: State, p: seq<byte>): Step<()>
  {
    if |p| < 4 then TooShort(s)
    else if p[3] == 0x01 && p[1] == s.chNum then Done(s.(labels := s.labels.(catId := p[2], catName := Strip(p[4..]))))
    else Done(s)
  }

  /** D3: the tuned channel's artist and title, when byte 2 is 1 and the channel number matches. */
  function OnProgram(s: State, p: seq<byte>): Step<()>
  {
    if |p| < 3 then TooShort(s)
    else if p[2] == 0x01 && p[1] == s.chNum then
      Done(s.(labels := s.labels.(artistName := Strip(Slice(p, 3, 19)), titleName := Strip(From(p, 19)))))
    else Done(s)
  }

  /** D4 and D5: an extended label changed; it is fetched again with ext_info. */
  function OnExtendedChange(s: State, p: seq<byte>): Step<()>
  {
    if |p| < 3 then TooShort(s)
    else if p[2] == 0x01 then Done(CaniTx.ExtInfoStep(s, p[1]).state)
    else Done(s)
  }

  /** D6: program lengths, printed only; the bytes read depend on the two flags. */
  function OnProgramLength(s: State, p: seq<byte>): Step<()>
  {
    if |p| < 4 then TooShort(s)
    else if p[3] != 0x01 && |p| < 5 then TooShort(s)
    else if !(p[3] == 0x01 || p[4] == 0x01) then Done(s)
    else if p[3] == 0x01 && |p| < 7 then TooShort(s)
    else if p[4] == 0x01 && |p| < 9 then TooShort(s)
    else Done(s)
  }

  /** FF: an error report, with the status text or the radio's own message. */
  function ErrorText(verbose: bool, p: seq<byte>): string
    requires |p| >= 3
  {
    var base := if p[1] == 0x01 && p[2] == 0x00 then "Antenna not detected, check antenna"
                else if p[1] == 0xFF && p[2] == 0xFF then Latin1(p[3..])
                else CaniRx.FetchStatus(p);
    if verbose then base + "\n" + Hex2(p[1]) + " " + Hex2(p[2]) + " " + Latin1(p[3..]) else base
  }

  /** Whether a payload needs at least n bytes: the reads that only print. */
  function Needs(s: State, p: seq<byte>, n: nat): Step<()>
  {
    if |p| < n then TooShort(s) else Done(s)
  }

  /** A code the dispatcher has no handler for is only logged. */
  function Unknown(s: State, p: seq<byte>): Step<()>
    requires p != []
  {
    Done(WithNotice(s, Log, "Unknown return code " + PyHex(p[0])))
  }

  /** CaniConductor.go on the session state, by the range of the response code. */
  function GoStep(s: State, p: seq<byte>): Step<()>
  {
    if p == [] then TooShort(s)
    else if p[0] < 0xA0 then GoPower(s, p)
    else if p[0] < 0xD0 then GoInfo(s, p)
    else if p[0] < 0xE0 then GoLabels(s, p)
    else GoStatus(s, p)
  }

  /** Responses to power, tuning and volume commands. */
  function GoPower(s: State, p: seq<byte>): Step<()>
    requires p != []
  {
    match p[0]
    case 0x80 => Done(OnStartup(s, p))
    case 0x81 => OnPowerOff(s, p)
    case 0x8B => OnLineLevel(s, p)
    case 0x90 => OnTune(s, p)
    case 0x91 => OnTuneCancel(s, p)
    case 0x93 => Needs(s, p, 4)
    case _ => Unknown(s, p)
  }

  /** Responses to information, signal and data requests. */
  function GoInfo(s: State, p: seq<byte>): Step<()>
    requires p != []
  {
    match p[0]
    case 0xA2 => Done(CaniRx.ExtInfoReport(s, p))
    case 0xA5 => OnChannelInfo(s, p)
    case 0xB1 => Done(OnRadioId(s, p))
    case 0xC1 => CaniRx.SignalReport(s, p)
    case 0xC3 => CaniRx.SignalReport(s, p)
    case 0xC2 => Done(s)
    case 0xCA => OnDataReply(s, p)
    case 0xCF => Needs(s, p, 4)
    case _ => Unknown(s, p)
  }

  /** Unsolicited label, program and clock updates. */
  function GoLabels(s: State, p: seq<byte>): Step<()>
    requires p != []
  {
    match p[0]
    case 0xD0 => Needs(s, p, 4)
    case 0xD1 => OnChannelName(s, p)
    case 0xD2 => OnCategory(s, p)
    case 0xD3 => OnProgram(s, p)
    case 0xD4 => OnExtendedChange(s, p)
    case 0xD5 => OnExtendedChange(s, p)
    case 0xD6 => OnProgramLength(s, p)
    case 0xDE => Done(s)
    case 0xDF => CaniRx.ClockReport(s, p)
    case _ => Unknown(s, p)
  }

  /** Activation, firmware, data-module, idle and error reports. */
  function GoStatus(s: State, p: seq<byte>): Step<()>
    requires p != []
  {
    match p[0]
    case 0xE0 => Info(s, "Fetched activation info")
    case 0xE1 => Done(WithNotice(s, Warning, "Fetched deactivation info"))
    case 0xE2 => Done(WithNotice(s, Warning, CaniRx.ActivationErrorText))
    case 0xE3 => Done(CaniRx.FirmwareReport(s, p))
    case 0xE4 => Done(s)
    case 0xF4 => Done(s)
    case 0xEA => Needs(s, p, 2)
    case 0xF0 => Done(s)
    case 0xF1 => Done(s)
    case 0xF2 => Done(s.(directIdleFrames := s.directIdleFrames + 1))
    case 0xFF => if |p| < 3 then TooShort(s) else Done(WithNotice(s, Error, ErrorText(s.verbose, p)))
    case _ => Unknown(s, p)
  }

  /** The follow-up commands the dispatcher sends never raise, so their echoes can be dropped. */
  lemma FollowUpsSucceed(s: State, ch: byte)
    ensures CaniTx.ChannelInfoStep(s, ch, false, 0).result.Ok? && CaniTx.ExtInfoStep(s, ch).result.Ok?
    ensures CaniTx.ChanMonStep(s, ch, false, true, true, true, true).result.Ok?
    ensures Transmit(s, Encode(GetRadioId)).result.Ok?
  {
  }

  /** The frames Tuned writes on an open port: channel_info, ext_info, then chan_mon in GUI mode. */
  lemma TunedSends(s: State, sid: byte, ch: byte)
    requires s.serial.open
    ensures var on := ch != 0;
            Tuned(s, sid, ch).serial.sent ==
              s.serial.sent + [Frame(Encode(ChannelInfo(ByNumber, ch, 0))), Frame(Encode(ExtInfo(ch)))] +
              (if s.gui then [Frame(Encode(ChannelMonitor(false, ch, on, on, on, on)))] else [])
    ensures Tuned(s, sid, ch).(serial := s.serial) == s.(chSid := sid, chNum := ch, labels := NoLabels)
  {
  }

  /** 90 with status 01 00: the channel becomes current, the labels are cleared, and
      channel_info then ext_info (then chan_mon in GUI mode) are sent, in that order. */
  lemma TuneOk(s: State, p: seq<byte>)
    requires |p| >= 6 && p[0] == 0x90 && p[1] == 0x01 && p[2] == 0x00 && s.serial.open
    ensures var t := GoStep(s, p);
            var on := p[4] != 0;
            t.result == Ok(()) &&
            t.state.serial.sent == s.serial.sent + [Frame(Encode(ChannelInfo(ByNumber, p[4], 0))), Frame(Encode(ExtInfo(p[4])))] +
              (if s.gui then [Frame(Encode(ChannelMonitor(false, p[4], on, on, on, on)))] else []) &&
            t.state.(serial := s.serial) ==
              s.(chSid := p[3], chNum := p[4], labels := NoLabels, dataInUse := s.dataInUse || p[5] != 0)
  {
    var s1 := if p[5] != 0 then s.(dataInUse := true) else s;
    assert GoStep(s, p) == Done(Tuned(s1, p[3], p[4]));
    TunedSends(s1, p[3], p[4]);
  }

  /** The wire bytes of the three follow-ups for channel ch. */
  lemma TuneFollowUpLayouts(ch: byte)
    ensures Encode(ChannelInfo(ByNumber, ch, 0)) == [0x25, 0x08, ch, 0x00]
    ensures Encode(ExtInfo(ch)) == [0x22, ch]
    ensures Encode(ChannelMonitor(false, ch, ch != 0, ch != 0, ch != 0, ch != 0)) ==
            [0x50, ch, B(ch != 0), B(ch != 0), B(ch != 0), B(ch != 0)]
  {
  }

  /** 90 with 04 0E only asks for the radio ID; any other status only warns.
      Neither path touches the channel fields or the labels. */
  lemma TuneNotOk(s: State, p: seq<byte>)
    requires |p| >= 6 && p[0] == 0x90 && !(p[1] == 0x01 && p[2] == 0x00)
    ensures var s1 := s.(dataInUse := s.dataInUse || p[5] != 0);
            GoStep(s, p) ==
              if p[1] == 0x04 && p[2] == 0x0E then Done(Transmit(s1, [0x31]).state)
              else Done(WithNotice(s1, Warning, CaniRx.FetchStatus(p)))
  {
    assert GoStep(s, p) == OnTune(s, p);
  }

  /** A 90 report shorter than six bytes raises and changes nothing. */
  lemma TuneTooShort(s: State, p: seq<byte>)
    requires 1 <= |p| < 6 && p[0] == 0x90
    ensures GoStep(s, p) == Step(s, Raised(IndexError))
  {
  }

  /** 91: byte 4 decides which identifier byte 3 replaces. */
  lemma TuneCancel(s: State, p: seq<byte>)
    requires |p| >= 5 && p[0] == 0x91
    ensures GoStep(s, p) == Done(if p[4] != 0 then s.(chSid := p[3]) else s.(chNum := p[3]))
  {
  }

  /** A5 with 02 04 or 04 0E never reaches parse_chan: channel fields and labels stay. */
  lemma ChannelInfoNotices(s: State, p: seq<byte>)
    requires |p| >= 3 && p[0] == 0xA5
    requires (p[1] == 0x02 && p[2] == 0x04) || (p[1] == 0x04 && p[2] == 0x0E)
    ensures var t := GoStep(s, p).state;
            t.chNum == s.chNum && t.chSid == s.chSid && t.labels == s.labels && t.radioId == s.radioId
  {
    assert GoStep(s, p) == OnChannelInfo(s, p);
  }

  /** B1 sets the radio ID exactly when the report is 12 bytes long. */
  lemma RadioId(s: State, p: seq<byte>)
    requires |p| >= 1 && p[0] == 0xB1
    ensures |p| == 12 ==> GoStep(s, p).state.radioId == p[4..12]
    ensures |p| != 12 ==> GoStep(s, p) == Done(WithNotice(s, Log, "Invalid Radio ID length"))
    ensures GoStep(s, p).state.(radioId := s.radioId, notices := s.notices) == s
  {
    assert GoStep(s, p) == Done(OnRadioId(s, p));
  }

  /** D1 changes only the name, and only for the tuned channel with the flag set. */
  lemma ChannelNameOnlyCurrent(s: State, p: seq<byte>)
    requires |p| >= 3 && p[0] == 0xD1
    ensures GoStep(s, p) ==
            Done(if p[2] == 0x01 && p[1] == s.chNum then s.(labels := s.labels.(chName := Strip(Slice(p, 3, 19)))) else s)
  {
    assert GoStep(s, p) == GoLabels(s, p);
    assert GoStep(s, p) == OnChannelName(s, p);
  }

  /** D2 changes only the category, and only for the tuned channel with the flag set. */
  lemma CategoryOnlyCurrent(s: State, p: seq<byte>)
    requires |p| >= 4 && p[0] == 0xD2
    ensures GoStep(s, p) ==
            Done(if p[3] == 0x01 && p[1] == s.chNum then s.(labels := s.labels.(catId := p[2], catName := Strip(p[4..]))) else s)
  {
    assert GoStep(s, p) == GoLabels(s, p);
    assert GoStep(s, p) == OnCategory(s, p);
  }

  /** D3 changes only artist and title, and only for the tuned channel with the flag set. */
  lemma ProgramOnlyCurrent(s: State, p: seq<byte>)
    requires |p| >= 3 && p[0] == 0xD3
    ensures GoStep(s, p) ==
            Done(if p[2] == 0x01 && p[1] == s.chNum
                 then s.(labels := s.labels.(artistName := Strip(Slice(p, 3, 19)), titleName := Strip(From(p, 19))))
                 else s)
  {
    assert GoStep(s, p) == GoLabels(s, p);
    assert GoStep(s, p) == OnProgram(s, p);
  }

  /** D4 and D5 only re-request the extended labels of the channel in byte 1. */
  lemma ExtendedChangeRefetches(s: State, p: seq<byte>)
    requires |p| >= 3 && (p[0] == 0xD4 || p[0] == 0xD5)
    ensures p[2] == 0x01 && s.serial.open ==> GoStep(s, p) == Done(Wrote(s, Frame([0x22, p[1]])))
    ensures p[2] != 0x01 || !s.serial.open ==> GoStep(s, p) == Done(s)
  {
    assert GoStep(s, p) == GoLabels(s, p);
    assert GoStep(s, p) == OnExtendedChange(s, p);
  }

  /** F2 counts one idle frame and changes nothing else. */
  lemma IdleFrameCounted(s: State, p: seq<byte>)
    requires |p| >= 1 && p[0] == 0xF2
    ensures GoStep(s, p) == Done(s.(directIdleFrames := s.directIdleFrames + 1))
  {
  }

  predicate KnownCode(b: byte)
  {
    b in {0x80, 0x81, 0x8B, 0x90, 0x91, 0x93, 0xA2, 0xA5, 0xB1, 0xC1, 0xC2, 0xC3, 0xCA, 0xCF, 0xD0,
          0xD1, 0xD2, 0xD3, 0xD4, 0xD5, 0xD6, 0xDE, 0xDF, 0xE0, 0xE1, 0xE2, 0xE3, 0xE4, 0xEA,
          0xF0, 0xF1, 0xF2, 0xF4, 0xFF}
  }

  /** An unknown code only logs "Unknown return code 0x..". */
  lemma UnknownCodeOnlyLogs(s: State, p: seq<byte>)
    requires |p| >= 1 && !KnownCode(p[0])
    ensures GoStep(s, p) == Done(WithNotice(s, Log, "Unknown return code " + PyHex(p[0])))
  {
  }

  /** The empty payload raises on its first byte. */
  lemma EmptyPayloadRaises(s: State)
    ensures GoStep(s, []) == Step(s, Raised(IndexError))
  {
  }

  /** D6 program lengths are only printed: the session never changes. The
      report fails only when a byte it prints is missing: byte 3, byte 4
      unless byte 3 is set, bytes 5-6 when byte 3 is set and bytes 7-8 when
      byte 4 is set. */
  lemma ProgramLengthOnlyReads(s: State, p: seq<byte>)
    requires p != [] && p[0] == 0xD6
    ensures GoStep(s, p).state == s
    ensures |p| < 4 ==> GoStep(s, p).result.Raised?
    ensures |p| == 4 && p[3] != 0x01 ==> GoStep(s, p).result.Raised?
    ensures 4 <= |p| < 7 && p[3] == 0x01 ==> GoStep(s, p).result.Raised?
    ensures 5 <= |p| < 9 && p[4] == 0x01 ==> GoStep(s, p).result.Raised?
    ensures |p| >= 5 && p[3] != 0x01 && p[4] != 0x01 ==> GoStep(s, p).result == Ok(())
    ensures |p| >= 7 && p[3] == 0x01 && p[4] != 0x01 ==> GoStep(s, p).result == Ok(())
    ensures |p| >= 9 ==> GoStep(s, p).result == Ok(())
  {
  }

  /** The mute (93), channel-monitor (CF, D0) and data-packet (EA) reports are
      only printed: they never change the session, and fail exactly when the
      byte they print (byte 3, or byte 1 for EA) is missing. */
  lemma PrintOnlyCodes(s: State, p: seq<byte>)
    requires p != [] && p[0] in {0x93, 0xCF, 0xD0, 0xEA}
    ensures GoStep(s, p).state == s
    ensures p[0] != 0xEA ==> (GoStep(s, p).result.Raised? <==> |p| <= 3)
    ensures p[0] == 0xEA ==> (GoStep(s, p).result.Raised? <==> |p| <= 1)
  {
  }

  /** What the dispatcher may do to a state: keep the port, its unread bytes and
      the flags, and only append to the frames sent and to the notices. */
  predicate Appends(s: State, t: State)
  {
    t.serial.open == s.serial.open && t.serial.inbound == s.serial.inbound &&
    s.serial.sent <= t.serial.sent && s.notices <= t.notices && t.verbose == s.verbose && t.gui == s.gui
  }

  lemma AppendsTrans(a: State, b: State, c: State)
    requires Appends(a, b) && Appends(b, c)
    ensures Appends(a, c)
  {
  }

  lemma TransmitAppends(s: State, payload: seq<byte>)
    ensures Appends(s, Transmit(s, payload).state)
  {
  }

  lemma TunedAppends(s: State, sid: byte, ch: byte)
    ensures Appends(s, Tuned(s, sid, ch))
    ensures Tuned(s, sid, ch).chNum == ch && Tuned(s, sid, ch).chSid == sid
  {
    var u := s.(chSid := sid, chNum := ch, labels := NoLabels);
    var u1 := Transmit(u, Encode(ChannelInfo(ByNumber, ch, 0))).state;
    var u2 := Transmit(u1, Encode(ExtInfo(ch))).state;
    TransmitAppends(u, Encode(ChannelInfo(ByNumber, ch, 0)));
    TransmitAppends(u1, Encode(ExtInfo(ch)));
    AppendsTrans(s, u, u1);
    AppendsTrans(s, u1, u2);
    assert CaniTx.ExtInfoStep(CaniTx.ChannelInfoStep(u, ch, false, 0).state, ch).state == u2;
    if u2.gui {
      var on := ch != 0;
      TransmitAppends(u2, Encode(ChannelMonitor(false, ch, on, on, on, on)));
      AppendsTrans(s, u2, Transmit(u2, Encode(ChannelMonitor(false, ch, on, on, on, on))).state);
    }
  }

  lemma StartupAppends(s: State, p: seq<byte>)
    ensures Appends(s, OnStartup(s, p))
    ensures OnStartup(s, p).chNum == s.chNum && OnStartup(s, p).chSid == s.chSid
  {
    var t0 := WithNotice(s, Level.Info, "Radio started");
    var t1 := CaniRx.StartupReport(t0, p);
    CaniRx.StartupOnlyStores(t0, p);
    AppendsTrans(s, t0, t1);
    if t1.gui {
      var t2 := Transmit(t1, Encode(ClockMonitor(true))).state;
      TransmitAppends(t1, Encode(ClockMonitor(true)));
      TransmitAppends(t2, Encode(SignalMonitor(true)));
      AppendsTrans(s, t1, t2);
      AppendsTrans(s, t2, Transmit(t2, Encode(SignalMonitor(true))).state);
    }
  }

  lemma TuneAppends(s: State, p: seq<byte>)
    ensures Preserves(s, OnTune(s, p).state)
  {
    if |p| >= 6 {
      var t := if p[5] != 0 then s.(dataInUse := true) else s;
      if p[1] == 0x04 && p[2] == 0x0E {
        TransmitAppends(t, Encode(GetRadioId));
      } else if p[1] == 0x01 && p[2] == 0x00 {
        TunedAppends(t, p[3], p[4]);
      }
    }
  }

  lemma ChannelInfoAppends(s: State, p: seq<byte>)
    ensures Preserves(s, OnChannelInfo(s, p).state)
  {
    if |p| < 3 {
    } else if p[1] == 0x02 && p[2] == 0x04 {
      NoticePreserves(s, Level.Info, "Data download started");
    } else if p[1] == 0x04 && p[2] == 0x0E {
      TransmitAppends(s, Encode(GetRadioId));
    } else {
      CaniRx.LabelParsersOnlyStore(s, p);
    }
  }

  lemma ExtendedChangeAppends(s: State, p: seq<byte>)
    ensures Preserves(s, OnExtendedChange(s, p).state)
  {
    if |p| >= 3 {
      TransmitAppends(s, Encode(ExtInfo(p[1])));
    }
  }

  /** ch_num and ch_sid hold byte values: true of a new session and kept by every response. */
  predicate ChannelFieldsValid(s: State)
  {
    InByte(s.chNum) && InByte(s.chSid)
  }

  /** The invariant every response keeps. */
  predicate Preserves(s: State, t: State)
  {
    Appends(s, t) && (ChannelFieldsValid(s) ==> ChannelFieldsValid(t))
  }

  lemma PowerOffPreserves(s: State, p: seq<byte>)
    ensures Preserves(s, OnPowerOff(s, p).state)
  {
    if |p| >= 3 && !(p[1] == 0x01 && p[2] == 0x00) {
      assert Preserves(s, WithNotice(DisplayDefaults(s), Warning, CaniRx.FetchStatus(p)));
    }
  }

  lemma RadioIdPreserves(s: State, p: seq<byte>)
    ensures Preserves(s, OnRadioId(s, p))
  {
  }

  /** Adding a notice keeps the invariant. */
  lemma NoticePreserves(s: State, level: Level, text: string)
    ensures Preserves(s, WithNotice(s, level, text))
  {
  }

  lemma DataReplyPreserves(s: State, p: seq<byte>)
    ensures Preserves(s, OnDataReply(s, p).state)
  {
    if |p| < 2 {
    } else if p[1] == 0x40 {
      NoticePreserves(s, Level.Info, "Data download stopped");
    } else if p[1] == 0x43 {
      NoticePreserves(s, Level.Info, "WX ping received");
    } else if p[1] == 0x64 {
      NoticePreserves(s, Level.Info, "WX Version\n\n" + Latin1(RStripNul(p[2..])));
    }
  }

  /** Replacing only the labels keeps the invariant. */
  lemma LabelsOnlyPreserve(s: State, l: Labels)
    ensures Preserves(s, s.(labels := l))
  {
  }

  lemma LabelUpdatesPreserve(s: State, p: seq<byte>)
    ensures Preserves(s, OnChannelName(s, p).state)
    ensures Preserves(s, OnCategory(s, p).state)
    ensures Preserves(s, OnProgram(s, p).state)
  {
    var n, c, g := OnChannelName(s, p).state, OnCategory(s, p).state, OnProgram(s, p).state;
    assert n == s.(labels := n.labels);
    assert c == s.(labels := c.labels);
    assert g == s.(labels := g.labels);
    LabelsOnlyPreserve(s, n.labels);
    LabelsOnlyPreserve(s, c.labels);
    LabelsOnlyPreserve(s, g.labels);
  }

  lemma ErrorReportPreserves(s: State, p: seq<byte>)
    requires |p| >= 3
    ensures Preserves(s, WithNotice(s, Error, ErrorText(s.verbose, p)))
  {
  }

  lemma GoPreservesPower(s: State, p: seq<byte>)
    requires p != []
    ensures Preserves(s, GoPower(s, p).state)
  {
    match p[0]
    case 0x80 => StartupAppends(s, p);
    case 0x81 => PowerOffPreserves(s, p);
    case 0x8B =>
    case 0x90 => TuneAppends(s, p);
    case 0x91 =>
    case 0x93 =>
    case _ =>
  }

  lemma GoPreservesInfo(s: State, p: seq<byte>)
    requires p != []
    ensures Preserves(s, GoInfo(s, p).state)
  {
    match p[0]
    case 0xA2 => CaniRx.LabelParsersOnlyStore(s, p);
    case 0xA5 => ChannelInfoAppends(s, p);
    case 0xB1 => RadioIdPreserves(s, p);
    case 0xC1 => CaniRx.SignalClockOnlyStore(s, p);
    case 0xC3 => CaniRx.SignalClockOnlyStore(s, p);
    case 0xC2 =>
    case 0xCA => DataReplyPreserves(s, p);
    case 0xCF =>
    case _ =>
  }

  lemma GoPreservesLabels(s: State, p: seq<byte>)
    requires p != []
    ensures Preserves(s, GoLabels(s, p).state)
  {
    match p[0]
    case 0xD0 =>
    case 0xD1 => LabelUpdatesPreserve(s, p);
    case 0xD2 => LabelUpdatesPreserve(s, p);
    case 0xD3 => LabelUpdatesPreserve(s, p);
    case 0xD4 => ExtendedChangeAppends(s, p);
    case 0xD5 => ExtendedChangeAppends(s, p);
    case 0xD6 =>
    case 0xDE =>
    case 0xDF => CaniRx.SignalClockOnlyStore(s, p);
    case _ =>
  }

  lemma GoPreservesStatus(s: State, p: seq<byte>)
    requires p != []
    ensures Preserves(s, GoStatus(s, p).state)
  {
    match p[0]
    case 0xE0 =>
    case 0xE1 =>
    case 0xE2 =>
    case 0xE3 => CaniRx.StartupOnlyStores(s, p);
    case 0xE4 =>
    case 0xF4 =>
    case 0xEA =>
    case 0xF0 =>
    case 0xF1 =>
    case 0xF2 =>
    case 0xFF => if |p| >= 3 { ErrorReportPreserves(s, p); }
    case _ =>
  }

  /** The dispatcher never closes the port, never consumes inbound bytes, only
      appends to the sent frames and to the notices, and keeps ch_num and ch_sid
      within a byte. */
  lemma GoPreserves(s: State, p: seq<byte>)
    ensures Appends(s, GoStep(s, p).state)
    ensures ChannelFieldsValid(s) ==> ChannelFieldsValid(GoStep(s, p).state)
  {
    if p == [] {
    } else if p[0] < 0xA0 {
      GoPreservesPower(s, p);
    } else if p[0] < 0xD0 {
      GoPreservesInfo(s, p);
    } else if p[0] < 0xE0 {
      GoPreservesLabels(s, p);
    } else {
      GoPreservesStatus(s, p);
    }
  }

  class CaniConductor {
    const parent: CaniPy
    const tx: CaniTx.CaniTx
    const rx: CaniRx.CaniRx

    predicate Valid()
    {
      tx.parent == parent && rx.parent == parent
    }

    constructor (parent: CaniPy, tx: CaniTx.CaniTx, rx: CaniRx.CaniRx)
      requires tx.parent == parent && rx.parent == parent
      ensures this.parent == parent && this.tx == tx && this.rx == rx && Valid()
    {
      this.parent := parent;
      this.tx := tx;
      this.rx := rx;
    }

    method Startup(p: seq<byte>)
      requires Valid()
      modifies parent
      ensures parent.Snapshot() == OnStartup(old(parent.Snapshot()), p)
    {
      parent.Notify(Level.Info, "Radio started");
      rx.ParseStartup(p);
      if parent.gui {
        var _ := tx.ClockMon(true);
        var _ := tx.SignalMon(true);
      }
    }

    method PowerOff(p: seq<byte>) returns (r: Result<()>)
      requires Valid()
      modifies parent
      ensures Step(parent.Snapshot(), r) == OnPowerOff(old(parent.Snapshot()), p)
    {
      parent.ResetDisplay();
      if |p| < 3 {
        return Raised(IndexError);
      }
      if !(p[1] == 0x01 && p[2] == 0x00) {
        parent.Notify(Warning, CaniRx.FetchStatus(p));
      }
      parent.Notify(Level.Info, "Radio is now powered off\nGoodnight!");
      r := Ok(());
    }

    method Tune(p: seq<byte>) returns (r: Result<()>)
      requires Valid()
      modifies parent
      ensures Step(parent.Snapshot(), r) == OnTune(old(parent.Snapshot()), p)
    {
      if |p| < 6 {
        return Raised(IndexError);
      }
      if p[5] != 0 {
        parent.dataInUse := true;
      }
      if p[1] == 0x04 && p[2] == 0x0E {
        var _ := tx.GetRadioId();
        return Ok(());
      }
      if !(p[1] == 0x01 && p[2] == 0x00) {
        parent.Notify(Warning, CaniRx.FetchStatus(p));
        return Ok(());
      }
      TuneTo(p[3], p[4]);
      r := Ok(());
    }

    method TuneTo(sid: byte, ch: byte)
      requires Valid()
      modifies parent
      ensures parent.Snapshot() == Tuned(old(parent.Snapshot()), sid, ch)
    {
      parent.chSid, parent.chNum, parent.labels := sid, ch, NoLabels;
      var _ := tx.ChannelInfo(ch, false, 0);
      var _ := tx.ExtInfo(ch);
      if parent.gui {
        var _ := tx.ChanMon(ch, false, true, true, true, true);
      }
    }

    method TuneCancel(p: seq<byte>) returns (r: Result<()>)
      requires Valid()
      modifies parent
      ensures Step(parent.Snapshot(), r) == OnTuneCancel(old(parent.Snapshot()), p)
    {
      if |p| < 5 {
        return Raised(IndexError);
      }
      if p[4] != 0 {
        parent.chSid := p[3];
      } else {
        parent.chNum := p[3];
      }
      r := Ok(());
    }

    method ChannelInfo(p: seq<byte>) returns (r: Result<()>)
      requires Valid()
      modifies parent
      ensures Step(parent.Snapshot(), r) == OnChannelInfo(old(parent.Snapshot()), p)
    {
      if |p| < 3 {
        return Raised(IndexError);
      }
      r := Ok(());
      if p[1] == 0x02 && p[2] == 0x04 {
        parent.Notify(Level.Info, "Data download started");
        return;
      }
      if p[1] == 0x04 && p[2] == 0x0E {
        var _ := tx.GetRadioId();
        return;
      }
      rx.ParseChan(p);
    }

    method RadioId(p: seq<byte>)
      requires Valid()
      modifies parent
      ensures parent.Snapshot() == OnRadioId(old(parent.Snapshot()), p)
    {
      if |p| != 12 {
        parent.Notify(Log, "Invalid Radio ID length");
        return;
      }
      parent.radioId := p[4..12];
      parent.Notify(Level.Info, "Radio ID\n\n" + Latin1(p[4..12]));
    }

    method DataReply(p: seq<byte>) returns (r: Result<()>)
      requires Valid()
      modifies parent
      ensures Step(parent.Snapshot(), r) == OnDataReply(old(parent.Snapshot()), p)
    {
      if |p| < 2 {
        return Raised(IndexError);
      }
      r := Ok(());
      if p[1] == 0x40 {
        if |p| < 5 {
          return Raised(IndexError);
        }
        if p[2] != 0xFF && p[4] == 0xFF {
          parent.Notify(Level.Info, "Data download stopped");
        }
      } else if p[1] == 0x43 {
        parent.Notify(Level.Info, "WX ping received");
      } else if p[1] == 0x64 {
        parent.Notify(Level.Info, "WX Version\n\n" + Latin1(RStripNul(p[2..])));
      }
    }

    method ChannelName(p: seq<byte>) returns (r: Result<()>)
      requires Valid()
      modifies parent
      ensures Step(parent.Snapshot(), r) == OnChannelName(old(parent.Snapshot()), p)
    {
      if |p| < 3 {
        return Raised(IndexError);
      }
      if p[2] == 0x01 && p[1] == parent.chNum {
        parent.SetLabels(parent.labels.(chName := Strip(Slice(p, 3, 19))));
      }
      r := Ok(());
    }

    method Category(p: seq<byte>) returns (r: Result<()>)
      requires Valid()
      modifies parent
      ensures Step(parent.Snapshot(), r) == OnCategory(old(parent.Snapshot()), p)
    {
      if |p| < 4 {
        return Raised(IndexError);
      }
      if p[3] == 0x01 && p[1] == parent.chNum {
        parent.SetLabels(parent.labels.(catId := p[2], catName := Strip(p[4..])));
      }
      r := Ok(());
    }

    method Program(p: seq<byte>) returns (r: Result<()>)
      requires Valid()
      modifies parent
      ensures Step(parent.Snapshot(), r) == OnProgram(old(parent.Snapshot()), p)
    {
      if |p| < 3 {
        return Raised(IndexError);
      }
      if p[2] == 0x01 && p[1] == parent.chNum {
        parent.SetLabels(parent.labels.(artistName := Strip(Slice(p, 3, 19)), titleName := Strip(From(p, 19))));
      }
      r := Ok(());
    }

    method ExtendedChange(p: seq<byte>) returns (r: Result<()>)
      requires Valid()
      modifies parent
      ensures Step(parent.Snapshot(), r) == OnExtendedChange(old(parent.Snapshot()), p)
    {
      if |p| < 3 {
        return Raised(IndexError);
      }
      if p[2] == 0x01 {
        var _ := tx.ExtInfo(p[1]);
      }
      r := Ok(());
    }

    method ProgramLength(p: seq<byte>) returns (r: Result<()>)
      requires Valid()
      ensures Step(parent.Snapshot(), r) == OnProgramLength(parent.Snapshot(), p)
    {
      if |p| < 4 || (p[3] != 0x01 && |p| < 5) {
        return Raised(IndexError);
      }
      r := Ok(());
      if p[3] == 0x01 || p[4] == 0x01 {
        if p[3] == 0x01 && |p| < 7 {
          return Raised(IndexError);
        }
        if p[4] == 0x01 && |p| < 9 {
          return Raised(IndexError);
        }
      }
    }

    method ErrorReport(p: seq<byte>) returns (r: Result<()>)
      requires Valid()
      modifies parent
      ensures Step(parent.Snapshot(), r) ==
              (if |p| < 3 then TooShort(old(parent.Snapshot()))
               else Done(WithNotice(old(parent.Snapshot()), Error, ErrorText(old(parent.verbose), p))))
    {
      if |p| < 3 {
        return Raised(IndexError);
      }
      var errstr := if p[1] == 0x01 && p[2] == 0x00 then "Antenna not detected, check antenna"
                    else if p[1] == 0xFF && p[2] == 0xFF then Latin1(p[3..])
                    else CaniRx.FetchStatus(p);
      if parent.verbose {
        errstr := errstr + "\n" + Hex2(p[1]) + " " + Hex2(p[2]) + " " + Latin1(p[3..]);
      }
      parent.Notify(Error, errstr);
      r := Ok(());
    }

    /** A read that needs n bytes and changes nothing. */
    method Need(p: seq<byte>, n: nat) returns (r: Result<()>)
      ensures Step(parent.Snapshot(), r) == Needs(parent.Snapshot(), p, n)
    {
      r := if |p| < n then Raised(IndexError) else Ok(());
    }

    /** CaniConductor.go */
    method Go(p: seq<byte>) returns (r: Result<()>)
      requires Valid()
      modifies parent
      ensures Step(parent.Snapshot(), r) == GoStep(old(parent.Snapshot()), p)
    {
      if p == [] {
        return Raised(IndexError);
      }
      r := Ok(());
      match p[0]
      case 0x80 => Startup(p);
      case 0x81 => r := PowerOff(p);
      case 0x8B =>
        if |p| < 4 {
          return Raised(IndexError);
        }
        parent.Notify(Log, "Line level set to " + IntToString(LineLevelDb(p[3])) + "dB");
      case 0x90 => r := Tune(p);
      case 0x91 => r := TuneCancel(p);
      case 0x93 => r := Need(p, 4);
      case 0xA2 => rx.ParseExtInfo(p);
      case 0xA5 => r := ChannelInfo(p);
      case 0xB1 => RadioId(p);
      case 0xC1 => r := rx.ParseSig(p);
      case 0xC3 => r := rx.ParseSig(p);
      case 0xC2 =>
      case 0xCA => r := DataReply(p);
      case 0xCF => r := Need(p, 4);
      case 0xD0 => r := Need(p, 4);
      case 0xD1 => r := ChannelName(p);
      case 0xD2 => r := Category(p);
      case 0xD3 => r := Program(p);
      case 0xD4 => r := ExtendedChange(p);
      case 0xD5 => r := ExtendedChange(p);
      case 0xD6 => r := ProgramLength(p);
      case 0xDE =>
      case 0xDF => r := rx.ParseClock(p);
      case 0xE0 => parent.Notify(Level.Info, "Fetched activation info");
      case 0xE1 => parent.Notify(Warning, "Fetched deactivation info");
      case 0xE2 => parent.Notify(Warning, CaniRx.ActivationErrorText);
      case 0xE3 => rx.ParseFirmInf(p);
      case 0xE4 =>
      case 0xF4 =>
      case 0xEA => r := Need(p, 2);
      case 0xF0 =>
      case 0xF1 =>
      case 0xF2 => parent.directIdleFrames := parent.directIdleFrames + 1;
      case 0xFF => r := ErrorReport(p);
      case _ => parent.Notify(Log, "Unknown return code " + PyHex(p[0]));
    }
  }
}

