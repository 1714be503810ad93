/** CaniRX (utils/comm/canirx.py): the status-text lookup and the
    length-checked response parsers that store what they decode in the
    session. Each parser logs "Payload not of correct length" and changes
    nothing else when the length is wrong. */
module CaniRx {
  import opened Bytes
  import opened Session

  const WrongLength := "Payload not of correct length"

  /** Shown both for status 06 0B and for the E2 response. */
  const ActivationErrorText :=
    "An error occurred when fetching activation info\nPlease restart radio or contact the service provider to refresh"

  /** fetch_status: the human-readable text for a status/detail pair in bytes 1 and 2. */
  function FetchStatus(p: seq<byte>): string
    requires |p| >= 3
  {
    match p[1]
    case 0x01 => if p[2] == 0x00 then "OK" else "Normal status"
    case 0x02 =>
      (match p[2]
       case 0x01 => "Channel requires Overlay receiver"
       case 0x02 => "Channel is a data service"
       case 0x03 => "Data stream available"
       case 0x04 => "Function unavailable for data channel"
       case 0x06 => "Irregular power state"
       case 0x12 => "Extended info only fetched when tuner is active!\nTune to a channel first before checking info"
       case _ => "Radio alert")
    case 0x03 =>
      "Not subscribed" +
      (if p[2] == 0x09 then "\nContact service provider to subscribe" else "") +
      (if p[2] == 0x0A then "\nNot available for current subscription" else "")
    case 0x04 =>
      (match p[2]
       case 0x0E => "Tuner will provide radio ID"
       case 0x10 => "No signal\nCheck if antenna is connected and has a clear view of the sky"
       case _ => "Tuning alert")
    case 0x06 =>
      if p[2] == 0x0B then ActivationErrorText
      else "Activation alert"
    case 0x07 =>
      (match p[2]
       case 0x0C => "Command is not supported for this channel"
       case 0x10 => "Please power up the tuner before sending commands"
       case _ => "Command alert")
    case _ => GenericAlert(p[1], p[2])
  }

  /** The text for a status the lookup does not name. */
  function GenericAlert(status: byte, detail: byte): (r: string)
    ensures |r| == 26 && r[..21] == "Radio reported alert "
  {
    "Radio reported alert " + Hex2(status) + " " + Hex2(detail)
  }

  /** Both bytes can be read back from the generic text. */
  lemma GenericAlertInjective(a: byte, b: byte, c: byte, d: byte)
    requires GenericAlert(a, b) == GenericAlert(c, d)
    ensures a == c && b == d
  {
    assert GenericAlert(a, b)[21..23] == Hex2(a) && GenericAlert(c, d)[21..23] == Hex2(c);
    assert GenericAlert(a, b)[24..26] == Hex2(b) && GenericAlert(c, d)[24..26] == Hex2(d);
    Hex2Injective(a, c);
    Hex2Injective(b, d);
  }

  /** The status bytes the lookup names; every other status is a generic alert. */
  predicate KnownStatus(b: byte) { b == 0x01 || b == 0x02 || b == 0x03 || b == 0x04 || b == 0x06 || b == 0x07 }

  lemma FetchStatusOk(p: seq<byte>)
    requires |p| >= 3
    ensures FetchStatus(p) == "OK" <==> p[1] == 0x01 && p[2] == 0x00
    ensures FetchStatus(p) == "Normal status" <==> p[1] == 0x01 && p[2] != 0x00
  {
    if !KnownStatus(p[1]) {
      assert FetchStatus(p) == GenericAlert(p[1], p[2]);
    }
  }

  /** Status 03 always reads "Not subscribed"; only details 09 and 0A add a second line. */
  lemma FetchStatusSubscription(p: seq<byte>)
    requires |p| >= 3 && p[1] == 0x03
    ensures |FetchStatus(p)| >= 14 && FetchStatus(p)[..14] == "Not subscribed"
    ensures FetchStatus(p) == "Not subscribed" <==> p[2] != 0x09 && p[2] != 0x0A
  {
  }

  /** An unlisted status is reported as "Radio reported alert XX YY", from which
      both bytes can be read back. */
  lemma FetchStatusGeneric(p: seq<byte>, q: seq<byte>)
    requires |p| >= 3 && |q| >= 3 && !KnownStatus(p[1]) && !KnownStatus(q[1])
    ensures FetchStatus(p) == "Radio reported alert " + Hex2(p[1]) + " " + Hex2(p[2])
    ensures FetchStatus(p) == FetchStatus(q) ==> p[1] == q[1] && p[2] == q[2]
  {
    if FetchStatus(p) == FetchStatus(q) {
      GenericAlertInjective(p[1], p[2], q[1], q[2]);
    }
  }

  /** parse_startup: a 27-byte report stores the radio ID from bytes 19..26 and
      warns with the status text when the activation byte is neither 0, 1 nor 3. */
  function StartupReport(s: State, p: seq<byte>): State
  {
    if |p| != 27 then WithNotice(s, Log, WrongLength)
    else
      var t := s.(radioId := p[19..27]);
      if p[1] != 0x00 && p[1] != 0x01 && p[1] != 0x03 then WithNotice(t, Warning, FetchStatus(p)) else t
  }

  /** parse_extinfo: a 78-byte report with status 01 stores the extended artist
      (bytes 5..36) and title (bytes 42..73) lines, NUL padding removed, each only
      when its flag byte is 1 and the report is for the tuned channel number. */
  function ExtInfoReport(s: State, p: seq<byte>): State
  {
    if |p| != 78 then WithNotice(s, Log, WrongLength)
    else if p[1] != 0x01 then WithNotice(s, Warning, FetchStatus(p))
    else
      var current := p[3] == s.chNum;
      var l1 := if p[4] == 0x01 && current then s.labels.(artistName := RStripNul(p[5..37])) else s.labels;
      var l2 := if p[41] == 0x01 && current then l1.(titleName := RStripNul(p[42..74])) else l1;
      s.(labels := l2)
  }

  /** parse_chan: a 77-byte report for the tuned channel (matching number or
      service ID) first refreshes both identifiers, whatever its status; with
      status 01 it then stores the name, the program lines and the category,
      each behind its flag byte. */
  function ChannelReport(s: State, p: seq<byte>): State
  {
    if |p| != 77 then WithNotice(s, Log, WrongLength)
    else
      var current := p[3] == s.chNum || p[4] == s.chSid;
      var t := if current then s.(chNum := p[3], chSid := p[4]) else s;
      if p[1] != 0x01 then WithNotice(t, Warning, FetchStatus(p))
      else
        var l1 := if p[5] == 0x01 && current then t.labels.(chName := p[6..22]) else t.labels;
        var l2 := if p[40] == 0x01 && current then l1.(artistName := p[41..57], titleName := p[57..73]) else l1;
        var l3 := if p[22] == 0x01 && current then l2.(catName := p[24..40], catId := p[23]) else l2;
        t.(labels := l3)
  }

  /** The event-driven C1 report is padded to the polled C3 layout: 01 00 goes in
      after the code and two zero bytes are appended. */
  function PadSignal(p: seq<byte>): (q: seq<byte>)
    requires |p| >= 1
    ensures |q| == |p| + 4
    ensures q[0] == p[0] && q[1] == 0x01 && q[2] == 0x00 && q[3..|p| + 2] == p[1..]
    ensures q[|p| + 2..] == [0x00, 0x00]
  {
    p[..1] + [0x01, 0x00] + p[1..] + [0x00, 0x00]
  }

  /** The report parse_sig works on. */
  function SignalLayout(p: seq<byte>): (q: seq<byte>)
    requires |p| >= 1
  {
    if p[0] == 0xC1 then PadSignal(p) else p
  }

  /** parse_sig: a 22- or 26-byte report stores the satellite, antenna and
      terrestrial levels from bytes 3..5 of the padded report. The verbose
      printout reads bytes 22..23 (and 24..25 for C3), which an unpadded
      22-byte report does not have: that raises after the levels are stored. */
  function SignalReport(s: State, p: seq<byte>): Step<()>
  {
    if |p| != 22 && |p| != 26 then Step(WithNotice(s, Log, WrongLength), Ok(()))
    else
      var q := SignalLayout(p);
      var t := s.(signal := Signal(q[3], q[4], q[5]));
      var needed := if q[0] == 0xC3 then 26 else 24;
      if t.verbose && |q| < needed then Step(t, Raised(IndexError)) else Step(t, Ok(()))
  }

  /** A C1 report carries its levels in bytes 1..3, a C3 report in bytes 3..5. */
  lemma SignalLevels(s: State, p: seq<byte>)
    requires |p| == 22 || |p| == 26
    ensures p[0] == 0xC1 ==> SignalReport(s, p).state.signal == Signal(p[1], p[2], p[3])
    ensures p[0] != 0xC1 ==> SignalReport(s, p).state.signal == Signal(p[3], p[4], p[5])
    ensures SignalReport(s, p).state == s.(signal := SignalReport(s, p).state.signal)
  {
    if p[0] == 0xC1 {
      var q := PadSignal(p);
      assert q[3] == p[1] && q[4] == p[2] && q[5] == p[3] by {
        assert q[3..|p| + 2] == p[1..];
      }
    }
  }

  /** Only an unpadded 22-byte report under verbose output fails. */
  lemma SignalRaises(s: State, p: seq<byte>)
    requires |p| == 22 || |p| == 26
    ensures SignalReport(s, p).result.Raised? <==> s.verbose && |p| == 22 && p[0] != 0xC1
  {
  }

  /** The day field of the packed clock: the low nibble plus 16 when bit 4 is set. */
  function ClockDay(b: byte): (d: int)
    ensures 0 <= d <= 31
  {
    b % 16 + (if (b / 16) % 2 == 1 then 16 else 0)
  }

  /** The weekday key: the high nibble with its low bit cleared. */
  function WeekdayKey(b: byte): (k: int)
    ensures 0 <= k <= 14 && k % 2 == 0
  {
    b / 16 - (b / 16) % 2
  }

  /** The date and time fields of a DF report, before validity is checked. */
  function DecodeClock(p: seq<byte>): (c: Clock)
    requires |p| >= 8
    ensures 0 <= c.year <= 25755 && 0 <= c.second <= 127
  {
    Clock(p[1] as int * 100 + p[2] as int, p[3], ClockDay(p[4]), p[5], p[6], p[7] % 128)
  }

  predicate IsLeapYear(y: int) { y % 4 == 0 && (y % 100 != 0 || y % 400 == 0) }

  function DaysInMonth(y: int, m: int): int
    requires 1 <= m <= 12
  {
    if m == 2 then (if IsLeapYear(y) then 29 else 28)
    else if m == 4 || m == 6 || m == 9 || m == 11 then 30
    else 31
  }

  /** When Python's datetime(...) accepts the fields. */
  predicate ValidDateTime(c: Clock)
  {
    1 <= c.year <= 9999 && 1 <= c.month <= 12 && 1 <= c.day <= DaysInMonth(c.year, c.month) &&
    0 <= c.hour <= 23 && 0 <= c.minute <= 59 && 0 <= c.second <= 59
  }

  /** parse_clock: an 11-byte report stores the decoded UTC time; fields that
      do not form a date make datetime raise and nothing is stored. */
  function ClockReport(s: State, p: seq<byte>): Step<()>
  {
    if |p| != 11 then Step(WithNotice(s, Log, WrongLength), Ok(()))
    else if !ValidDateTime(DecodeClock(p)) then Step(s, Raised(ValueError))
    else Step(s.(satDatetime := Some(DecodeClock(p))), Ok(()))
  }

  /** The stored time has the documented fields and only sat_datetime changes. */
  lemma ClockFields(s: State, p: seq<byte>)
    requires |p| == 11 && ClockReport(s, p).result.Ok?
    ensures var c := ClockReport(s, p).state.satDatetime;
            c.Some? && c.value.year == p[1] as int * 100 + p[2] as int && c.value.month == p[3] &&
            c.value.day == p[4] % 16 + 16 * ((p[4] / 16) % 2) && c.value.hour == p[5] && c.value.minute == p[6] &&
            c.value.second == p[7] % 128 &&
            ValidDateTime(c.value)
    ensures ClockReport(s, p).state == s.(satDatetime := ClockReport(s, p).state.satDatetime)
  {
  }

  /** A seconds byte above 59 once its top bit is dropped always fails. */
  lemma ClockBadSecond(s: State, p: seq<byte>)
    requires |p| == 11 && p[7] % 128 > 59
    ensures ClockReport(s, p) == Step(s, Raised(ValueError))
  {
  }

  /** parse_firminf only prints. */
  function FirmwareReport(s: State, p: seq<byte>): State
  {
    if |p| != 19 then WithNotice(s, Log, WrongLength) else s
  }

  /** A wrong-length report only logs. */
  lemma WrongLengthOnlyLogs(s: State, p: seq<byte>)
    ensures |p| != 27 ==> StartupReport(s, p) == WithNotice(s, Log, WrongLength)
    ensures |p| != 78 ==> ExtInfoReport(s, p) == WithNotice(s, Log, WrongLength)
    ensures |p| != 77 ==> ChannelReport(s, p) == WithNotice(s, Log, WrongLength)
    ensures |p| != 11 ==> ClockReport(s, p) == Step(WithNotice(s, Log, WrongLength), Ok(()))
    ensures FirmwareReport(s, p).(notices := s.notices) == s
  {
  }

  /** A 27-byte startup report sets the radio ID, warns at most once, and changes nothing else. */
  lemma StartupRadioId(s: State, p: seq<byte>)
    requires |p| == 27
    ensures StartupReport(s, p).radioId == p[19..27]
    ensures StartupReport(s, p).(radioId := s.radioId, notices := s.notices) == s
    ensures |StartupReport(s, p).notices| == |s.notices| + (if p[1] in {0x00, 0x01, 0x03} then 0 else 1)
  {
  }

  /** Extended labels change only for the tuned channel, only behind their flags,
      only with status 01, and nothing but those two labels changes. */
  lemma ExtInfoOnlyCurrent(s: State, p: seq<byte>)
    requires |p| == 78
    ensures var t := ExtInfoReport(s, p);
            (t.labels.artistName != s.labels.artistName ==> p[1] == 0x01 && p[4] == 0x01 && p[3] == s.chNum) &&
            (t.labels.titleName != s.labels.titleName ==> p[1] == 0x01 && p[41] == 0x01 && p[3] == s.chNum)
    ensures p[1] == 0x01 && p[4] == 0x01 && p[3] == s.chNum ==> ExtInfoReport(s, p).labels.artistName == RStripNul(p[5..37])
    ensures p[1] == 0x01 && p[41] == 0x01 && p[3] == s.chNum ==> ExtInfoReport(s, p).labels.titleName == RStripNul(p[42..74])
    ensures p[1] == 0x01 ==>
              ExtInfoReport(s, p).(labels := ExtInfoReport(s, p).labels.(artistName := s.labels.artistName, titleName := s.labels.titleName)) == s
  {
    var t := ExtInfoReport(s, p);
    if p[1] != 0x01 {
      assert t.labels == s.labels;
    } else {
      var current := p[3] == s.chNum;
      assert t.labels.artistName == if p[4] == 0x01 && current then RStripNul(p[5..37]) else s.labels.artistName;
      assert t.labels.titleName == if p[41] == 0x01 && current then RStripNul(p[42..74]) else s.labels.titleName;
      assert t == s.(labels := t.labels);
    }
  }

  /** A matching report refreshes both identifiers even when its status is not OK;
      any other report leaves them and every label alone. */
  lemma ChannelMatch(s: State, p: seq<byte>)
    requires |p| == 77
    ensures p[3] == s.chNum || p[4] == s.chSid ==> ChannelReport(s, p).chNum == p[3] && ChannelReport(s, p).chSid == p[4]
    ensures !(p[3] == s.chNum || p[4] == s.chSid) ==>
              ChannelReport(s, p).chNum == s.chNum && ChannelReport(s, p).chSid == s.chSid &&
              ChannelReport(s, p).labels == s.labels
    ensures p[1] != 0x01 ==> ChannelReport(s, p).labels == s.labels
  {
  }

  /** With status 01 for the tuned channel, each flagged group is stored from its slice. */
  lemma ChannelLabels(s: State, p: seq<byte>)
    requires |p| == 77 && p[1] == 0x01 && (p[3] == s.chNum || p[4] == s.chSid)
    ensures var l := ChannelReport(s, p).labels;
            (p[5] == 0x01 ==> l.chName == p[6..22]) &&
            (p[40] == 0x01 ==> l.artistName == p[41..57] && l.titleName == p[57..73]) &&
            (p[22] == 0x01 ==> l.catName == p[24..40] && l.catId == p[23]) &&
            (p[5] != 0x01 ==> l.chName == s.labels.chName) &&
            (p[40] != 0x01 ==> l.artistName == s.labels.artistName && l.titleName == s.labels.titleName) &&
            (p[22] != 0x01 ==> l.catName == s.labels.catName && l.catId == s.labels.catId)
  {
  }

  /** What a parser may do: store decoded values and log, but never touch the
      port, its unread bytes or the output flags. */
  predicate OnlyStores(s: State, t: State)
  {
    t.serial == s.serial && t.verbose == s.verbose && t.gui == s.gui && s.notices <= t.notices
  }

  /** No parser writes to the port or touches the inbound bytes. */
  lemma StartupOnlyStores(s: State, p: seq<byte>)
    ensures OnlyStores(s, StartupReport(s, p)) && OnlyStores(s, FirmwareReport(s, p))
  {
  }

  lemma LabelParsersOnlyStore(s: State, p: seq<byte>)
    ensures OnlyStores(s, ExtInfoReport(s, p)) && OnlyStores(s, ChannelReport(s, p))
  {
  }

  lemma SignalClockOnlyStore(s: State, p: seq<byte>)
    ensures OnlyStores(s, SignalReport(s, p).state) && OnlyStores(s, ClockReport(s, p).state)
  {
  }

  class CaniRx {
    const parent: CaniPy

    constructor (parent: CaniPy)
      ensures this.parent == parent
    {
      this.parent := parent;
    }

    method ParseStartup(p: seq<byte>)
      modifies parent
      ensures parent.Snapshot() == StartupReport(old(parent.Snapshot()), p)
    {
      if |p| != 27 {
        parent.Notify(Log, WrongLength);
        return;
      }
      parent.radioId := p[19..27];
      if p[1] != 0x00 && p[1] != 0x01 && p[1] != 0x03 {
        parent.Notify(Warning, FetchStatus(p));
      }
    }

    method ParseExtInfo(p: seq<byte>)
      modifies parent
      ensures parent.Snapshot() == ExtInfoReport(old(parent.Snapshot()), p)
    {
      if |p| != 78 {
        parent.Notify(Log, WrongLength);
        return;
      }
      if p[1] != 0x01 {
        parent.Notify(Warning, FetchStatus(p));
        return;
      }
      if p[4] == 0x01 && p[3] == parent.chNum {
        parent.labels := parent.labels.(artistName := RStripNul(p[5..37]));
      }
      if p[41] == 0x01 && p[3] == parent.chNum {
        parent.labels := parent.labels.(titleName := RStripNul(p[42..74]));
      }
    }

    method ParseChan(p: seq<byte>)
      modifies parent
      ensures parent.Snapshot() == ChannelReport(old(parent.Snapshot()), p)
    {
      if |p| != 77 {
        parent.Notify(Log, WrongLength);
        return;
      }
      var isCurrent := false;
      if p[3] == parent.chNum || p[4] == parent.chSid {
        isCurrent := true;
        parent.chNum, parent.chSid := p[3], p[4];
      }
      if p[1] != 0x01 {
        parent.Notify(Warning, FetchStatus(p));
        return;
      }
      if p[5] == 0x01 && isCurrent {
        parent.labels := parent.labels.(chName := p[6..22]);
      }
      if p[40] == 0x01 && isCurrent {
        parent.labels := parent.labels.(artistName := p[41..57], titleName := p[57..73]);
      }
      if p[22] == 0x01 && isCurrent {
        parent.labels := parent.labels.(catName := p[24..40], catId := p[23]);
      }
    }

    method ParseSig(p: seq<byte>) returns (r: Result<()>)
      modifies parent
      ensures Step(parent.Snapshot(), r) == SignalReport(old(parent.Snapshot()), p)
    {
      if |p| != 22 && |p| != 26 {
        parent.Notify(Log, WrongLength);
        return Ok(());
      }
      var q := p;
      if q[0] == 0xC1 {
        q := q[..1] + [0x01, 0x00] + q[1..] + [0x00, 0x00];
      }
      parent.signal := Signal(q[3], q[4], q[5]);
      r := Ok(());
      if parent.verbose {
        if |q| < 24 || (q[0] == 0xC3 && |q| < 26) {
          r := Raised(IndexError);
        }
      }
    }

    method ParseClock(p: seq<byte>) returns (r: Result<()>)
      modifies parent
      ensures Step(parent.Snapshot(), r) == ClockReport(old(parent.Snapshot()), p)
    {
      if |p| != 11 {
        parent.Notify(Log, WrongLength);
        return Ok(());
      }
      var c := Clock(p[1] as int * 100 + p[2] as int, p[3], ClockDay(p[4]), p[5], p[6], p[7] % 128);
      if !ValidDateTime(c) {
        return Raised(ValueError);
      }
      parent.satDatetime := Some(c);
      r := Ok(());
    }

    method ParseFirmInf(p: seq<byte>)
      modifies parent
      ensures parent.Snapshot() == FirmwareReport(old(parent.Snapshot()), p)
    {
      if |p| != 19 {
        parent.Notify(Log, WrongLength);
      }
    }
  }
}
