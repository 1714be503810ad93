/** The wire envelope: marker 5A A5, a big-endian 16-bit length, the payload
    and the trailer ED ED (utils/canipy.py:77-78), and the inverse used by
    the reader thread to cut a payload out of the inbound byte stream. */
module Framer {
  import opened Bytes

  const Header: seq<byte> := [0x5A, 0xA5]
  const Tail: seq<byte> := [0xED, 0xED]

  /** header ++ be16(len(payload)) ++ payload ++ tail, as written to the port. */
  function Frame(payload: seq<byte>): (f: seq<byte>)
    requires |payload| < 0x1_0000
    ensures |f| == |payload| + 6
    ensures f[..2] == Header && f[|f| - 2..] == Tail
    ensures f[2] as int * 256 + f[3] as int == |payload|
    ensures f[4..|f| - 2] == payload
  {
    Header + Be16(|payload|) + payload + Tail
  }

  lemma FrameInjective(p: seq<byte>, q: seq<byte>)
    requires |p| < 0x1_0000 && |q| < 0x1_0000
    requires Frame(p) == Frame(q)
    ensures p == q
  {
    assert p == Frame(p)[4..|Frame(p)| - 2];
  }

  /** What one call of the reader's thread_buffer returns, and what is left unread. */
  datatype ReadResult = ReadResult(payload: seq<byte>, rest: seq<byte>)

  /** The number of bytes a read(n) takes from a stream holding |s| bytes. */
  function Take(n: nat, s: seq<byte>): (k: nat)
    ensures k <= n && k <= |s|
    ensures k == n || k == |s|
  {
    if n <= |s| then n else |s|
  }

  /** The length field of a 5-byte header. */
  function SizeField(h: seq<byte>): (size: nat)
    requires |h| >= 4
    ensures size < 0x1_0000
  {
    h[2] as int * 256 + h[3] as int
  }

  /** Specification of CaniThread.thread_buffer on a finite inbound stream.
      portOpen: whether a serial connection is open; signalSet: the thread's
      stop signal. A read that finds nothing more in the stream ends the
      attempt with an empty payload (the source keeps polling there until
      the stop signal is set, which also ends it with an empty payload). */
  function Deframe(portOpen: bool, stream: seq<byte>, signalSet: bool): (r: ReadResult)
    ensures |r.rest| <= |stream|
    ensures r.rest == stream[|stream| - |r.rest|..]
    ensures portOpen && stream != [] ==> |r.rest| < |stream|
    ensures !portOpen ==> r == ReadResult([], stream)
  {
    if !portOpen then ReadResult([], stream)
    else if signalSet then ReadResult([], stream[Take(5, stream)..])
    else if |stream| < 5 then ReadResult([], [])
    else if stream[..2] != Header then ReadResult([], stream[5..])
    else
      var size := SizeField(stream);
      var body := stream[5..];
      if |body| < size + 1 then ReadResult([], [])
      else ReadResult(stream[4..5] + DropLast2(body[..size + 1]), body[size + 1..])
  }

  /** CaniThread.thread_buffer: the header loop accumulates partial reads
      until five bytes are in hand, then the body of size+1 bytes is read
      in one call and the response code is joined to it without the
      last two (trailer) bytes. */
  method ThreadBuffer(portOpen: bool, stream: seq<byte>, signalSet: bool)
    returns (buf: seq<byte>, rest: seq<byte>)
    ensures ReadResult(buf, rest) == Deframe(portOpen, stream, signalSet)
  {
    if !portOpen {
      return [], stream;
    }
    rest := stream;
    var packet: seq<byte> := [];
    var readSoFar := 0;
    while readSoFar < 5
      invariant readSoFar == |packet| <= 5
      invariant stream == packet + rest
      invariant readSoFar > 0 ==> !signalSet
      invariant 0 < readSoFar < 5 ==> rest == []
      decreases 5 - readSoFar
    {
      var n := Take(5 - readSoFar, rest);
      var chunk := rest[..n];
      rest := rest[n..];
      packet := packet + chunk;
      readSoFar := readSoFar + |chunk|;
      if signalSet {
        return [], rest;
      }
      if chunk == [] {
        // Nothing further can arrive on this stream.
        return [], rest;
      }
    }
    if packet[..2] != Header {
      return [], rest;
    }
    var size := packet[2] as int * 256 + packet[3] as int;
    var m := Take(size + 1, rest);
    var restOfPacket := rest[..m];
    rest := rest[m..];
    if |restOfPacket| != size + 1 {
      return [], rest;
    }
    buf := packet[4..] + DropLast2(restOfPacket);
  }

  /** Deframing the frame the encoder produces for a non-empty payload gives
      the payload back and leaves the bytes after the frame unread. */
  lemma DeframeFrame(p: seq<byte>, more: seq<byte>)
    requires 1 <= |p| < 0x1_0000
    ensures Deframe(true, Frame(p) + more, false) == ReadResult(p, more)
  {
    var s := Frame(p) + more;
    assert s[..2] == Header;
    assert SizeField(s) == |p|;
    var body := s[5..];
    assert body == p[1..] + Tail + more;
    assert body[..|p| + 1] == p[1..] + Tail;
    assert DropLast2(body[..|p| + 1]) == p[1..];
    assert s[4..5] == [p[0]];
  }

  /** The empty payload does not survive: its frame deframes to the single
      trailer byte ED, because the header read already takes one trailer byte. */
  lemma DeframeEmptyFrame(more: seq<byte>)
    ensures Deframe(true, Frame([]) + more, false) == ReadResult([0xED], more)
  {
    var s := Frame([]) + more;
    assert s[..2] == Header;
    assert SizeField(s) == 0;
    assert s[5..][..1] == [0xED];
    assert s[4..5] == [0xED];
  }

  /** A non-empty delivered payload always came from a well-marked header,
      its length is the length field (or 1 for a zero field) and it starts
      with the fifth byte of the stream. */
  lemma DeframedShape(stream: seq<byte>, signalSet: bool)
    requires Deframe(true, stream, signalSet).payload != []
    ensures !signalSet && |stream| >= 5 && stream[..2] == Header
    ensures |Deframe(true, stream, signalSet).payload| ==
            (if SizeField(stream) == 0 then 1 else SizeField(stream))
    ensures Deframe(true, stream, signalSet).payload[0] == stream[4]
    ensures |stream| >= 6 + SizeField(stream)
  {
  }

  /** The trailer is never checked: any two bytes in place of ED ED give the same payload. */
  lemma TrailerUnchecked(p: seq<byte>, t: seq<byte>, more: seq<byte>)
    requires 1 <= |p| < 0x1_0000 && |t| == 2
    ensures Deframe(true, Header + Be16(|p|) + p + t + more, false) == ReadResult(p, more)
  {
    var s := Header + Be16(|p|) + p + t + more;
    assert s[..2] == Header;
    assert SizeField(s) == |p|;
    var body := s[5..];
    assert body == p[1..] + t + more;
    assert body[..|p| + 1] == p[1..] + t;
    assert DropLast2(body[..|p| + 1]) == p[1..];
    assert s[4..5] == [p[0]];
  }

  /** A header whose marker is wrong discards the five header bytes and delivers nothing. */
  lemma BadMarkerDiscardsHeader(stream: seq<byte>)
    requires |stream| >= 5 && stream[..2] != Header
    ensures Deframe(true, stream, false) == ReadResult([], stream[5..])
  {
  }

  /** A body shorter than size+1 bytes delivers nothing. */
  lemma ShortBodyDeliversNothing(stream: seq<byte>)
    requires |stream| >= 5 && stream[..2] == Header
    requires |stream| - 5 < SizeField(stream) + 1
    ensures Deframe(true, stream, false).payload == []
  {
  }

  /** Once the stop signal is set, the header read delivers nothing. */
  lemma SignalDeliversNothing(stream: seq<byte>)
    ensures Deframe(true, stream, true).payload == []
  {
  }
}
