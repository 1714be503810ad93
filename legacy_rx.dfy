/** The older response parsers (utils/canirx.py), used by the older CaniPy
    dispatcher. They print instead of logging, so the only effects modelled are
    the session attributes they store; compared with the newer parsers they do
    not demand status 01 before storing labels and they keep the title slice
    parse_extinfo was written with. */
module LegacyRx {
  import opened Bytes
  import opened Session
  import Newer = CaniRx

  /** parse_startup: a 27-byte report stores bytes 19..26 as the radio ID;
      any other length only prints. */
  function StartupReport(s: State, p: seq<byte>): State
  {
    if |p| == 27 then s.(radioId := p[19..27]) else s
  }

  /** parse_extinfo: a 78-byte report that is not "not subscribed" (status 03)
      stores the artist line from bytes 5..36 and the title line from bytes
      57..72, NUL padding removed, each behind its flag byte and only for the
      tuned channel number. */
  function ExtInfoReport(s: State, p: seq<byte>): State
  {
    if |p| != 78 || p[1] == 0x03 then s
    else
      var current := p[3] == s.chNum;
      var l1 := if p[4] == 0x01 && current then s.labels.(artistName := RStripNul(p[5..37])) else s.labels;
      var l2 := if p[41] == 0x01 && current then l1.(titleName := RStripNul(p[57..73])) else l1;
      s.(labels := l2)
  }

  /** The title line parse_extinfo prints: bytes 42..73, NUL padding removed. */
  function PrintedTitle(p: seq<byte>): seq<byte>
    requires |p| == 78
  {
    RStripNul(p[42..74])
  }

  /** parse_chan: a 77-byte report for the tuned channel (matching number or
      service ID) refreshes both identifiers; unless its status is 03 or 04 it
      then stores the name, the program lines and the category behind their
      flag bytes, all without removing padding. */
  function ChannelReport(s: State, p: seq<byte>): State
  {
    if |p| != 77 then s
    else
      var current := p[3] == s.chNum || p[4] == s.chSid;
      var t := if current then s.(chNum := p[3], chSid := p[4]) else s;
      if p[1] == 0x03 || p[1] == 0x04 then t
      else
        var l1 := if p[5] == 0x01 && current then t.labels.(chName := p[6..22]) else t.labels;
        var l2 := if p[40] == 0x01 && current then l1.(artistName := p[41..57], titleName := p[57..73]) else l1;
        var l3 := if p[22] == 0x01 && current then l2.(catName := p[24..40], catId := p[23]) else l2;
        t.(labels := l3)
  }

  /** parse_sig: a 22- or 26-byte report, C1 padded to the C3 layout, stores the
      three levels; the verbose printout raises on a report too short for the
      AGC (and, for C3, the noise) bytes after the levels are stored. */
  function SignalReport(s: State, p: seq<byte>): Step<()>
  {
    if |p| != 22 && |p| != 26 then Step(s, Ok(()))
    else
      var q := Newer.SignalLayout(p);
      var t := s.(signal := Signal(q[3], q[4], q[5]));
      var needed := if q[0] == 0xC3 then 26 else 24;
      if t.verbose && |q| < needed then Step(t, Raised(IndexError)) else Step(t, Ok(()))
  }

  /** The day of month parse_clock prints: the low nibble of byte 4 only. */
  function PrintedDay(b: byte): (d: int)
    ensures 0 <= d <= 15
  {
    b % 16
  }

  lemma StartupRadioId(s: State, p: seq<byte>)
    ensures |p| == 27 ==> StartupReport(s, p) == s.(radioId := p[19..27])
    ensures |p| != 27 ==> StartupReport(s, p) == s
  {
  }

  /** The extended labels change only behind their flags, for the tuned channel,
      and never for a not-subscribed report; status 04 and others still store. */
  lemma ExtInfoOnlyCurrent(s: State, p: seq<byte>)
    requires |p| == 78
    ensures var t := ExtInfoReport(s, p);
            (t.labels.artistName != s.labels.artistName ==> p[1] != 0x03 && p[4] == 0x01 && p[3] == s.chNum) &&
            (t.labels.titleName != s.labels.titleName ==> p[1] != 0x03 && p[41] == 0x01 && p[3] == s.chNum)
    ensures p[1] != 0x03 && p[4] == 0x01 && p[3] == s.chNum ==>
              ExtInfoReport(s, p).labels.artistName == RStripNul(p[5..37])
    ensures p[1] != 0x03 && p[41] == 0x01 && p[3] == s.chNum ==>
              ExtInfoReport(s, p).labels.titleName == RStripNul(p[57..73])
    ensures ExtInfoReport(s, p).labels.(artistName := s.labels.artistName, titleName := s.labels.titleName) == s.labels
  {
  }

  /** The title parse_extinfo stores is not the one it prints: a title that fills
      bytes 42..56 and is NUL-padded after them prints whole but is stored empty,
      where the newer parser stores exactly what is printed. */
  lemma ExtInfoTitleNotPrinted(s: State, p: seq<byte>)
    requires |p| == 78 && p[1] == 0x01 && p[41] == 0x01 && p[3] == s.chNum
    requires p[56] != 0 && forall k :: 57 <= k < 74 ==> p[k] == 0
    ensures ExtInfoReport(s, p).labels.titleName == []
    ensures PrintedTitle(p) == p[42..57] != []
    ensures Newer.ExtInfoReport(s, p).labels.titleName == PrintedTitle(p)
  {
    RStripNulPadding([], p[57..73]);
    assert [] + p[57..73] == p[57..73];
    assert p[42..74] == p[42..57] + p[57..74];
    RStripNulPadding(p[42..57], p[57..74]);
  }

  /** Apart from the title slice, the two parse_extinfo versions agree on a
      status-01 report. */
  lemma ExtInfoArtistAgrees(s: State, p: seq<byte>)
    requires |p| == 78 && p[1] == 0x01
    ensures ExtInfoReport(s, p).labels.artistName == Newer.ExtInfoReport(s, p).labels.artistName
    ensures ExtInfoReport(s, p).(labels := s.labels) == Newer.ExtInfoReport(s, p).(labels := s.labels)
  {
  }

  /** A matching report refreshes both identifiers whatever its status; a
      report for another channel changes nothing; status 03 and 04 keep the labels. */
  lemma ChannelMatch(s: State, p: seq<byte>)
    requires |p| == 77
    ensures p[3] == s.chNum || p[4] == s.chSid ==>
              ChannelReport(s, p).chNum == p[3] && ChannelReport(s, p).chSid == p[4]
    ensures !(p[3] == s.chNum || p[4] == s.chSid) ==> ChannelReport(s, p) == s
    ensures p[1] == 0x03 || p[1] == 0x04 ==> ChannelReport(s, p).labels == s.labels
  {
  }

  /** On a status-01 report the older parse_chan stores exactly what the newer one does. */
  lemma ChannelAgreesOnOk(s: State, p: seq<byte>)
    requires |p| == 77 && p[1] == 0x01
    ensures ChannelReport(s, p) == Newer.ChannelReport(s, p)
  {
  }

  /** A status outside 01, 03 and 04 still stores the flagged labels for the tuned channel. */
  lemma ChannelOtherStatusStores(s: State, p: seq<byte>)
    requires |p| == 77 && p[1] != 0x01 && p[1] != 0x03 && p[1] != 0x04
    requires p[3] == s.chNum && p[5] == 0x01
    ensures ChannelReport(s, p).labels.chName == p[6..22]
    ensures Newer.ChannelReport(s, p).labels.chName == s.labels.chName
  {
  }

  /** For an accepted length the older parse_sig stores and raises as the newer
      one does; the wrong-length report, which the newer one logs, changes nothing. */
  lemma SignalAgreesWithNewer(s: State, p: seq<byte>)
    ensures |p| == 22 || |p| == 26 ==> SignalReport(s, p) == Newer.SignalReport(s, p)
    ensures |p| != 22 && |p| != 26 ==> SignalReport(s, p) == Step(s, Ok(()))
  {
  }

  /** The printed day agrees with the decoded day of month exactly when bit 4 of
      the day byte is clear: days 16 to 31 are printed 16 too low. */
  lemma PrintedDayMatches(b: byte)
    ensures PrintedDay(b) == Newer.ClockDay(b) <==> (b / 16) % 2 == 0
    ensures (b / 16) % 2 == 1 ==> PrintedDay(b) + 16 == Newer.ClockDay(b)
  {
  }

  /** No older parser logs, writes to the port or touches more than its own attributes. */
  lemma ParsersOnlyStore(s: State, p: seq<byte>)
    ensures StartupReport(s, p).(radioId := s.radioId) == s
    ensures ExtInfoReport(s, p).(labels := s.labels) == s
    ensures ChannelReport(s, p).(chNum := s.chNum, chSid := s.chSid, labels := s.labels) == s
    ensures SignalReport(s, p).state.(signal := s.signal) == s
  {
  }

  /** The older CaniRX, bound to the session it stores into. */
  class CaniRx {
    const parent: CaniPy

    constructor (parent: CaniPy)
      ensures this.parent == parent
    {
      this.parent := parent;
    }

    method ParseStartup(p: seq<byte>)
      modifies parent
      ensures parent.Snapshot() == StartupReport(old(parent.Snapshot()), p)
    {
      if |p| == 27 {
        parent.radioId := p[19..27];
      }
    }

    method ParseExtInfo(p: seq<byte>)
      modifies parent
      ensures parent.Snapshot() == ExtInfoReport(old(parent.Snapshot()), p)
    {
      if |p| != 78 || p[1] == 0x03 {
        return;
      }
      if p[4] == 0x01 && p[3] == parent.chNum {
        parent.SetLabels(parent.labels.(artistName := RStripNul(p[5..37])));
      }
      if p[41] == 0x01 && p[3] == parent.chNum {
        parent.SetLabels(parent.labels.(titleName := RStripNul(p[57..73])));
      }
    }

    method ParseChan(p: seq<byte>)
      modifies parent
      ensures parent.Snapshot() == ChannelReport(old(parent.Snapshot()), p)
    {
      if |p| != 77 {
        return;
      }
      var isCurrent := false;
      if p[3] == parent.chNum || p[4] == parent.chSid {
        isCurrent := true;
        parent.chNum, parent.chSid := p[3], p[4];
      }
      if p[1] == 0x03 || p[1] == 0x04 {
        return;
      }
      if p[5] == 0x01 && isCurrent {
        parent.labels := parent.labels.(chName := p[6..22]);
      }
      if p[40] == 0x01 && isCurrent {
        parent.labels := parent.labels.(artistName := p[41..57], titleName := p[57..73]);
      }
      if p[22] == 0x01 && isCurrent {
        parent.labels := parent.labels.(catName := p[24..40], catId := p[23]);
      }
    }

    method ParseSig(p: seq<byte>) returns (r: Result<()>)
      modifies parent
      ensures Step(parent.Snapshot(), r) == SignalReport(old(parent.Snapshot()), p)
    {
      if |p| != 22 && |p| != 26 {
        return Ok(());
      }
      var q := Newer.SignalLayout(p);
      parent.signal := Signal(q[3], q[4], q[5]);
      var needed := if q[0] == 0xC3 then 26 else 24;
      if parent.verbose && |q| < needed {
        return Raised(IndexError);
      }
      r := Ok(());
    }
  }
}
