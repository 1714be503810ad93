/** The older dispatcher, CaniPy.rx_response in utils/canipy.py. It prints instead
    of logging, so only the attributes it stores, the one command it sends and the
    IndexError a short payload raises are modelled. */
module LegacyCaniPy {
  import opened Bytes
  import opened Framer
  import opened Session
  import opened Commands
  import LegacyRx
  import CaniConductor

  /** The channel_info request the older dispatcher sends after a tune: 25 08 ch 00. */
  function ChannelInfoRequest(ch: byte): seq<byte>
  {
    Encode(ChannelInfo(ByNumber, ch, 0x00))
  }

  /** 90, a tune result: "not subscribed" (03) and "no signal" (04) only print;
      any other status stores the service ID from byte 3, then the number from
      byte 4, reads byte 5, and asks for the channel's information. The reads
      are in that order, so a short payload raises with the writes before it done. */
  function OnTune(s: State, p: seq<byte>): Step<()>
  {
    if |p| < 2 then CaniConductor.TooShort(s)
    else if p[1] == 0x03 || p[1] == 0x04 then CaniConductor.Needs(s, p, 3)
    else if |p| < 4 then CaniConductor.TooShort(s)
    else if |p| < 5 then CaniConductor.TooShort(s.(chSid := p[3]))
    else
      var t := s.(chSid := p[3], chNum := p[4]);
      if |p| < 6 then CaniConductor.TooShort(t)
      else CaniConductor.Done(Transmit(t, ChannelInfoRequest(p[4])).state)
  }

  /** 91, a cancelled tune: byte 3 replaces the service ID when byte 4 is set,
      the channel number otherwise. */
  function OnTuneCancel(s: State, p: seq<byte>): Step<()>
  {
    if |p| < 5 then CaniConductor.TooShort(s)
    else if p[4] != 0 then CaniConductor.Done(s.(chSid := p[3]))
    else CaniConductor.Done(s.(chNum := p[3]))
  }

  /** B1: a 12-byte reply stores bytes 4..11 as the radio ID; any other length only prints. */
  function OnRadioId(s: State, p: seq<byte>): Step<()>
  {
    if |p| == 12 then CaniConductor.Done(s.(radioId := p[4..12])) else CaniConductor.Done(s)
  }

  /** CA: the data-service replies only print; 40 reads up to byte 4. */
  function OnDataReply(s: State, p: seq<byte>): Step<()>
  {
    if |p| < 2 then CaniConductor.TooShort(s)
    else if p[1] == 0x40 && |p| < 5 then CaniConductor.TooShort(s)
    else CaniConductor.Done(s)
  }

  /** D1: the channel name, bytes 3..18 as they are, for the tuned channel. */
  function OnChannelName(s: State, p: seq<byte>): Step<()>
  {
    if |p| < 3 then CaniConductor.TooShort(s)
    else if p[2] == 0x01 && p[1] == s.chNum then CaniConductor.Done(s.(labels := s.labels.(chName := Slice(p, 3, 19))))
    else CaniConductor.Done(s)
  }

  /** D2: the category ID from byte 2 and its name from byte 4 on, for the tuned channel. */
  function OnCategory(s: State, p: seq<byte>): Step<()>
  {
    if |p| < 4 then CaniConductor.TooShort(s)
    else if p[3] == 0x01 && p[1] == s.chNum then CaniConductor.Done(s.(labels := s.labels.(catId := p[2], catName := p[4..])))
    else CaniConductor.Done(s)
  }

  /** D3: the artist from bytes 3..18 and the title from byte 19 on, for the tuned channel. */
  function OnProgram(s: State, p: seq<byte>): Step<()>
  {
    if |p| < 3 then CaniConductor.TooShort(s)
    else if p[2] == 0x01 && p[1] == s.chNum then
      CaniConductor.Done(s.(labels := s.labels.(artistName := Slice(p, 3, 19), titleName := From(p, 19))))
    else CaniConductor.Done(s)
  }

  /** D4: the extended artist line from byte 3 on, NUL padding removed. */
  function OnArtist(s: State, p: seq<byte>): Step<()>
  {
    if |p| < 3 then CaniConductor.TooShort(s)
    else if p[2] == 0x01 && p[1] == s.chNum then CaniConductor.Done(s.(labels := s.labels.(artistName := RStripNul(p[3..]))))
    else CaniConductor.Done(s)
  }

  /** D5: the extended title line from byte 3 on, NUL padding removed. */
  function OnTitle(s: State, p: seq<byte>): Step<()>
  {
    if |p| < 3 then CaniConductor.TooShort(s)
    else if p[2] == 0x01 && p[1] == s.chNum then CaniConductor.Done(s.(labels := s.labels.(titleName := RStripNul(p[3..]))))
    else CaniConductor.Done(s)
  }

  /** EA: a data frame is only described, and only when verbose. */
  function OnDataFrame(s: State, p: seq<byte>): Step<()>
  {
    if !s.verbose then CaniConductor.Done(s)
    else if |p| < 2 then CaniConductor.TooShort(s)
    else if p[1] == 0xD0 && |p| < 8 then CaniConductor.TooShort(s)
    else CaniConductor.Done(s)
  }

  /** FF: an error report only prints. Byte 2 is read when byte 1 is 01, 02
      or 07, and always when verbose. */
  function OnErrorReport(s: State, p: seq<byte>): Step<()>
  {
    if |p| < 2 then CaniConductor.TooShort(s)
    else if |p| < 3 && (p[1] == 0x01 || p[1] == 0x02 || p[1] == 0x07 || s.verbose) then CaniConductor.TooShort(s)
    else CaniConductor.Done(s)
  }

  /** rx_response on the session state, by the range of the response code. */
  function RxResponseStep(s: State, p: seq<byte>): Step<()>
  {
    if p == [] then CaniConductor.TooShort(s)
    else if p[0] < 0xA0 then PowerResponse(s, p)
    else if p[0] < 0xD0 then InfoResponse(s, p)
    else if p[0] < 0xE0 then LabelResponse(s, p)
    else StatusResponse(s, p)
  }

  function PowerResponse(s: State, p: seq<byte>): Step<()>
    requires p != []
  {
    match p[0]
    case 0x80 => CaniConductor.Done(LegacyRx.StartupReport(s, p))
    case 0x81 => CaniConductor.Done(s)
    case 0x8B => CaniConductor.Needs(s, p, 4)
    case 0x90 => OnTune(s, p)
    case 0x91 => OnTuneCancel(s, p)
    case 0x93 => CaniConductor.Needs(s, p, 4)
    case _ => CaniConductor.Done(s)
  }

  function InfoResponse(s: State, p: seq<byte>): Step<()>
    requires p != []
  {
    match p[0]
    case 0xA2 => CaniConductor.Done(LegacyRx.ExtInfoReport(s, p))
    case 0xA5 => CaniConductor.Done(LegacyRx.ChannelReport(s, p))
    case 0xB1 => OnRadioId(s, p)
    case 0xC1 => LegacyRx.SignalReport(s, p)
    case 0xC3 => LegacyRx.SignalReport(s, p)
    case 0xC2 => CaniConductor.Done(s)
    case 0xCA => OnDataReply(s, p)
    case _ => CaniConductor.Done(s)
  }

  function LabelResponse(s: State, p: seq<byte>): Step<()>
    requires p != []
  {
    match p[0]
    case 0xD0 => CaniConductor.Needs(s, p, 4)
    case 0xD1 => OnChannelName(s, p)
    case 0xD2 => OnCategory(s, p)
    case 0xD3 => OnProgram(s, p)
    case 0xD4 => OnArtist(s, p)
    case 0xD5 => OnTitle(s, p)
    case 0xD6 => CaniConductor.OnProgramLength(s, p)
    case 0xDE => CaniConductor.Done(s)
    case 0xDF => CaniConductor.Done(s)
    case _ => CaniConductor.Done(s)
  }

  function StatusResponse(s: State, p: seq<byte>): Step<()>
    requires p != []
  {
    match p[0]
    case 0xE0 => CaniConductor.Done(s)
    case 0xE1 => CaniConductor.Done(s)
    case 0xE3 => CaniConductor.Done(s)
    case 0xE4 => CaniConductor.Done(s)
    case 0xF4 => CaniConductor.Done(s)
    case 0xEA => OnDataFrame(s, p)
    case 0xF0 => CaniConductor.Done(s)
    case 0xF1 => CaniConductor.Done(s)
    case 0xF2 => CaniConductor.Done(s.(directIdleFrames := s.directIdleFrames + 1))
    case 0xFF => OnErrorReport(s, p)
    case _ => CaniConductor.Done(s)
  }

  /** The codes rx_response has a case for. */
  predicate Handled(code: byte)
  {
    code in {0x80, 0x81, 0x8B, 0x90, 0x91, 0x93, 0xA2, 0xA5, 0xB1, 0xC1, 0xC2, 0xC3, 0xCA,
             0xD0, 0xD1, 0xD2, 0xD3, 0xD4, 0xD5, 0xD6, 0xDE, 0xDF,
             0xE0, 0xE1, 0xE3, 0xE4, 0xF4, 0xEA, 0xF0, 0xF1, 0xF2, 0xFF}
  }

  /** An empty payload raises before anything else happens. */
  lemma EmptyPayloadRaises(s: State)
    ensures RxResponseStep(s, []) == Step(s, Raised(IndexError))
  {
  }

  /** A code without a case only prints: nothing changes and nothing raises. */
  lemma UnknownCodeChangesNothing(s: State, p: seq<byte>)
    requires p != [] && !Handled(p[0])
    ensures RxResponseStep(s, p) == Step(s, Ok(()))
  {
  }

  /** A not-subscribed or no-signal tune result leaves the channel as it was. */
  lemma TuneRefused(s: State, p: seq<byte>)
    requires |p| >= 3 && p[0] == 0x90 && (p[1] == 0x03 || p[1] == 0x04)
    ensures RxResponseStep(s, p) == Step(s, Ok(()))
  {
  }

  /** Any other tune result stores the service ID and the number and sends
      25 08 ch 00 for the new number; unlike the newer dispatcher, the labels
      are kept until that request is answered. */
  lemma TuneStoresAndRequests(s: State, p: seq<byte>)
    requires |p| >= 6 && p[0] == 0x90 && p[1] != 0x03 && p[1] != 0x04 && s.serial.open
    ensures RxResponseStep(s, p) == Step(Wrote(s.(chSid := p[3], chNum := p[4]), Frame([0x25, 0x08, p[4], 0x00])), Ok(()))
    ensures RxResponseStep(s, p).state.labels == s.labels
  {
  }

  /** A tune result cut short after byte 3 or byte 4 raises with the service
      ID, and then the number, already stored. */
  lemma TunePartialWrite(s: State, p: seq<byte>)
    requires p != [] && p[0] == 0x90 && (|p| == 4 || |p| == 5) && p[1] != 0x03 && p[1] != 0x04
    ensures |p| == 4 ==> RxResponseStep(s, p) == Step(s.(chSid := p[3]), Raised(IndexError))
    ensures |p| == 5 ==> RxResponseStep(s, p) == Step(s.(chSid := p[3], chNum := p[4]), Raised(IndexError))
  {
  }

  /** The cancelled tune replaces exactly one identifier, chosen by byte 4. */
  lemma TuneCancelSplit(s: State, p: seq<byte>)
    requires |p| >= 5 && p[0] == 0x91
    ensures p[4] != 0 ==> RxResponseStep(s, p) == Step(s.(chSid := p[3]), Ok(()))
    ensures p[4] == 0 ==> RxResponseStep(s, p) == Step(s.(chNum := p[3]), Ok(()))
  {
  }

  /** The radio ID is stored exactly when the reply has 12 bytes. */
  lemma RadioIdLength(s: State, p: seq<byte>)
    requires p != [] && p[0] == 0xB1
    ensures |p| == 12 ==> RxResponseStep(s, p) == Step(s.(radioId := p[4..12]), Ok(()))
    ensures |p| != 12 ==> RxResponseStep(s, p) == Step(s, Ok(()))
  {
  }

  /** The label replies D1..D5 change a label only for the tuned channel and only
      when their flag byte is 1, and never anything but the labels. */
  lemma LabelsOnlyForCurrent(s: State, p: seq<byte>)
    requires |p| >= 4 && 0xD1 <= p[0] <= 0xD5
    ensures var t := RxResponseStep(s, p);
            t.result == Ok(()) && t.state == s.(labels := t.state.labels) &&
            (t.state.labels != s.labels ==> p[1] == s.chNum && (if p[0] == 0xD2 then p[3] else p[2]) == 0x01)
  {
  }

  /** The D3 reply for the tuned channel splits its text at byte 19. */
  lemma ProgramSplit(s: State, p: seq<byte>)
    requires |p| >= 19 && p[0] == 0xD3 && p[2] == 0x01 && p[1] == s.chNum
    ensures RxResponseStep(s, p).state.labels.artistName + RxResponseStep(s, p).state.labels.titleName == p[3..]
  {
  }

  /** Every F2 idle frame is counted once. */
  lemma IdleFrameCounted(s: State, p: seq<byte>)
    requires p != [] && p[0] == 0xF2
    ensures RxResponseStep(s, p) == Step(s.(directIdleFrames := s.directIdleFrames + 1), Ok(()))
  {
  }

  /** D6 program lengths are only printed, exactly as in the newer dispatcher:
      nothing changes, and only a missing printed byte fails. */
  lemma ProgramLengthOnlyReads(s: State, p: seq<byte>)
    requires p != [] && p[0] == 0xD6
    ensures RxResponseStep(s, p).state == s
    ensures |p| < 4 ==> RxResponseStep(s, p).result.Raised?
    ensures |p| == 4 && p[3] != 0x01 ==> RxResponseStep(s, p).result.Raised?
    ensures 4 <= |p| < 7 && p[3] == 0x01 ==> RxResponseStep(s, p).result.Raised?
    ensures 5 <= |p| < 9 && p[4] == 0x01 ==> RxResponseStep(s, p).result.Raised?
    ensures |p| >= 5 && p[3] != 0x01 && p[4] != 0x01 ==> RxResponseStep(s, p).result == Ok(())
    ensures |p| >= 7 && p[3] == 0x01 && p[4] != 0x01 ==> RxResponseStep(s, p).result == Ok(())
    ensures |p| >= 9 ==> RxResponseStep(s, p).result == Ok(())
    ensures RxResponseStep(s, p) == CaniConductor.GoStep(s, p)
  {
  }

  /** The line-level (8B), mute (93) and channel-monitor (D0) reports are only
      printed: nothing changes, and they fail exactly when byte 3 is missing. */
  lemma PrintOnlyCodes(s: State, p: seq<byte>)
    requires p != [] && p[0] in {0x8B, 0x93, 0xD0}
    ensures RxResponseStep(s, p).state == s
    ensures RxResponseStep(s, p).result.Raised? <==> |p| <= 3
  {
  }

  /** A short error report raises exactly when a byte it prints is missing. */
  lemma ErrorReportReads(s: State, p: seq<byte>)
    requires |p| == 2 && p[0] == 0xFF
    ensures RxResponseStep(s, p).result.Raised? <==> p[1] in {0x01, 0x02, 0x07} || s.verbose
    ensures RxResponseStep(s, p).state == s
  {
  }

  /** What the older dispatcher may do to a session: never log, keep the port,
      its unread bytes and the flags, and send at most one frame. */
  predicate PrintsOnly(s: State, t: State)
  {
    t.notices == s.notices && t.verbose == s.verbose && t.gui == s.gui &&
    t.serial.open == s.serial.open && t.serial.inbound == s.serial.inbound &&
    s.serial.sent <= t.serial.sent && |t.serial.sent| <= |s.serial.sent| + 1
  }

  lemma PowerPrintsOnly(s: State, p: seq<byte>)
    requires p != []
    ensures PrintsOnly(s, PowerResponse(s, p).state)
  {
    match p[0]
    case 0x80 =>
    case 0x81 =>
    case 0x8B =>
    case 0x90 =>
    case 0x91 =>
    case 0x93 =>
    case _ =>
  }

  lemma InfoPrintsOnly(s: State, p: seq<byte>)
    requires p != []
    ensures PrintsOnly(s, InfoResponse(s, p).state)
  {
    match p[0]
    case 0xA2 =>
    case 0xA5 =>
    case 0xB1 =>
    case 0xC1 =>
    case 0xC3 =>
    case 0xC2 =>
    case 0xCA =>
    case _ =>
  }

  lemma LabelPrintsOnly(s: State, p: seq<byte>)
    requires p != []
    ensures PrintsOnly(s, LabelResponse(s, p).state)
  {
    match p[0]
    case 0xD0 =>
    case 0xD1 =>
    case 0xD2 =>
    case 0xD3 =>
    case 0xD4 =>
    case 0xD5 =>
    case 0xD6 =>
    case 0xDE =>
    case 0xDF =>
    case _ =>
  }

  lemma StatusPrintsOnly(s: State, p: seq<byte>)
    requires p != []
    ensures PrintsOnly(s, StatusResponse(s, p).state)
  {
    match p[0]
    case 0xE0 =>
    case 0xE1 =>
    case 0xE3 =>
    case 0xE4 =>
    case 0xF4 =>
    case 0xEA =>
    case 0xF0 =>
    case 0xF1 =>
    case 0xF2 =>
    case 0xFF =>
    case _ =>
  }

  /** No response makes the older dispatcher log anything, touch the port's
      state or send more than the one channel_info request. */
  lemma RxResponsePrintsOnly(s: State, p: seq<byte>)
    ensures PrintsOnly(s, RxResponseStep(s, p).state)
  {
    if p != [] {
      if p[0] < 0xA0 {
        PowerPrintsOnly(s, p);
      } else if p[0] < 0xD0 {
        InfoPrintsOnly(s, p);
      } else if p[0] < 0xE0 {
        LabelPrintsOnly(s, p);
      } else {
        StatusPrintsOnly(s, p);
      }
    }
  }

  /** CaniPy.rx_response, bound to the session whose attributes it stores and to
      the older parsers it hands reports to. */
  class Responder {
    const parent: CaniPy
    const rx: LegacyRx.CaniRx

    predicate Valid()
    {
      rx.parent == parent
    }

    constructor (parent: CaniPy, rx: LegacyRx.CaniRx)
      requires rx.parent == parent
      ensures this.parent == parent && this.rx == rx && Valid()
    {
      this.parent := parent;
      this.rx := rx;
    }

    method RxResponse(p: seq<byte>) returns (r: Result<()>)
      requires Valid()
      modifies parent
      ensures Step(parent.Snapshot(), r) == RxResponseStep(old(parent.Snapshot()), p)
    {
      if p == [] {
        return Raised(IndexError);
      }
      r := Ok(());
      match p[0]
      case 0x80 => rx.ParseStartup(p);
      case 0x8B => if |p| < 4 { r := Raised(IndexError); }
      case 0x90 => r := Tune(p);
      case 0x91 =>
        if |p| < 5 {
          r := Raised(IndexError);
        } else if p[4] != 0 {
          parent.chSid := p[3];
        } else {
          parent.chNum := p[3];
        }
      case 0x93 => if |p| < 4 { r := Raised(IndexError); }
      case 0xA2 => rx.ParseExtInfo(p);
      case 0xA5 => rx.ParseChan(p);
      case 0xB1 => if |p| == 12 { parent.radioId := p[4..12]; }
      case 0xC1 => r := rx.ParseSig(p);
      case 0xC3 => r := rx.ParseSig(p);
      case 0xCA => if |p| < 2 || (p[1] == 0x40 && |p| < 5) { r := Raised(IndexError); }
      case 0xD0 => if |p| < 4 { r := Raised(IndexError); }
      case 0xD1 => r := Labels(p);
      case 0xD2 => r := Labels(p);
      case 0xD3 => r := Labels(p);
      case 0xD4 => r := Labels(p);
      case 0xD5 => r := Labels(p);
      case 0xD6 => r := ProgramLength(p);
      case 0xEA =>
        if parent.verbose && (|p| < 2 || (p[1] == 0xD0 && |p| < 8)) {
          r := Raised(IndexError);
        }
      case 0xF2 => parent.directIdleFrames := parent.directIdleFrames + 1;
      case 0xFF =>
        if |p| < 2 || (|p| < 3 && (p[1] == 0x01 || p[1] == 0x02 || p[1] == 0x07 || parent.verbose)) {
          r := Raised(IndexError);
        }
      case _ =>
    }

    /** The 90 case: store the identifiers byte by byte, then send channel_info. */
    method Tune(p: seq<byte>) returns (r: Result<()>)
      requires p != [] && p[0] == 0x90
      modifies parent
      ensures Step(parent.Snapshot(), r) == OnTune(old(parent.Snapshot()), p)
    {
      if |p| < 2 {
        return Raised(IndexError);
      }
      if p[1] == 0x03 || p[1] == 0x04 {
        return if |p| < 3 then Raised(IndexError) else Ok(());
      }
      if |p| < 4 {
        return Raised(IndexError);
      }
      parent.chSid := p[3];
      if |p| < 5 {
        return Raised(IndexError);
      }
      parent.chNum := p[4];
      if |p| < 6 {
        return Raised(IndexError);
      }
      var _ := parent.PcrTx(ChannelInfoRequest(p[4]));
      r := Ok(());
    }

    /** The D1..D5 cases: each label is stored only for the tuned channel. */
    method Labels(p: seq<byte>) returns (r: Result<()>)
      requires p != [] && 0xD1 <= p[0] <= 0xD5
      modifies parent
      ensures Step(parent.Snapshot(), r) == LabelResponse(old(parent.Snapshot()), p)
    {
      var flag := if p[0] == 0xD2 then 3 else 2;
      if |p| <= flag {
        return Raised(IndexError);
      }
      r := Ok(());
      if p[flag] != 0x01 || p[1] != parent.chNum {
        return;
      }
      if p[0] == 0xD1 {
        parent.SetLabels(parent.labels.(chName := Slice(p, 3, 19)));
      } else if p[0] == 0xD2 {
        parent.SetLabels(parent.labels.(catId := p[2], catName := p[4..]));
      } else if p[0] == 0xD3 {
        parent.SetLabels(parent.labels.(artistName := Slice(p, 3, 19), titleName := From(p, 19)));
      } else if p[0] == 0xD4 {
        parent.SetLabels(parent.labels.(artistName := RStripNul(p[3..])));
      } else {
        parent.SetLabels(parent.labels.(titleName := RStripNul(p[3..])));
      }
    }

    /** The D6 case only prints, but the bytes it prints must be there. */
    method ProgramLength(p: seq<byte>) returns (r: Result<()>)
      requires p != [] && p[0] == 0xD6
      ensures Step(parent.Snapshot(), r) == CaniConductor.OnProgramLength(parent.Snapshot(), p)
    {
      r := Ok(());
      if |p| < 4 || (p[3] != 0x01 && |p| < 5) {
        r := Raised(IndexError);
      } else if p[3] == 0x01 || p[4] == 0x01 {
        if (p[3] == 0x01 && |p| < 7) || (p[4] == 0x01 && |p| < 9) {
          r := Raised(IndexError);
        }
      }
    }
  }
}
