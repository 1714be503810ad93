/** The reader thread: thread_buffer cuts one payload out of the inbound bytes
    and thread_read hands every non-empty payload to the response dispatcher. */
module CaniThread {
  import opened Bytes
  import opened Framer
  import opened Session
  import CaniConductor

  /** The session after a thread_buffer call: the bytes it read are gone from the port. */
  function Consume(s: State, rest: seq<byte>): State
  {
    s.(serial := s.serial.(inbound := rest))
  }

  /** What thread_read may do to a session: keep the port and the flags, consume a
      prefix of the inbound bytes, only append to the frames sent and the notices,
      and keep ch_num and ch_sid within a byte. */
  predicate Progress(s: State, t: State)
  {
    t.serial.open == s.serial.open && t.verbose == s.verbose && t.gui == s.gui &&
    |t.serial.inbound| <= |s.serial.inbound| &&
    t.serial.inbound == s.serial.inbound[|s.serial.inbound| - |t.serial.inbound|..] &&
    s.serial.sent <= t.serial.sent && s.notices <= t.notices &&
    (CaniConductor.ChannelFieldsValid(s) ==> CaniConductor.ChannelFieldsValid(t))
  }

  /** thread_read on a finite inbound stream. The stop signal is polled before
      every read. The loop ends when the signal is set, when the port is closed or
      the stream is exhausted (where the source keeps polling until the signal is
      set), or when the dispatcher raises, which ends the thread. */
  function ReadLoop(s: State, signalSet: bool): Step<()>
    decreases |s.serial.inbound|
  {
    if signalSet || !s.serial.open || s.serial.inbound == [] then Step(s, Ok(()))
    else
      var d := Deframe(true, s.serial.inbound, signalSet);
      var t := Consume(s, d.rest);
      if d.payload == [] then ReadLoop(t, signalSet)
      else
        var g := CaniConductor.GoStep(t, d.payload);
        CaniConductor.GoPreserves(t, d.payload);
        if g.result.Raised? then g else ReadLoop(g.state, signalSet)
  }

  /** A frame at the head of the stream is handed to the dispatcher with exactly
      the payload it carries, and reading goes on after it. */
  lemma ReadLoopDispatchesFrame(s: State, p: seq<byte>, more: seq<byte>)
    requires s.serial.open && 1 <= |p| < 0x1_0000
    requires s.serial.inbound == Frame(p) + more
    ensures var g := CaniConductor.GoStep(Consume(s, more), p);
            ReadLoop(s, false) == if g.result.Raised? then g else ReadLoop(g.state, false)
  {
    DeframeFrame(p, more);
  }

  /** An empty buffer never reaches the dispatcher: the bytes it used are dropped
      and reading goes on. */
  lemma ReadLoopSkipsEmpty(s: State, signalSet: bool, rest: seq<byte>)
    requires !signalSet && s.serial.open && s.serial.inbound != []
    requires Deframe(true, s.serial.inbound, signalSet) == ReadResult([], rest)
    ensures ReadLoop(s, signalSet) == ReadLoop(Consume(s, rest), signalSet)
  {
  }

  /** A non-empty buffer goes to the dispatcher; reading stops if it raises. */
  lemma ReadLoopDispatches(s: State, signalSet: bool, buf: seq<byte>, rest: seq<byte>)
    requires !signalSet && s.serial.open && s.serial.inbound != []
    requires Deframe(true, s.serial.inbound, signalSet) == ReadResult(buf, rest) && buf != []
    ensures var g := CaniConductor.GoStep(Consume(s, rest), buf);
            ReadLoop(s, signalSet) == if g.result.Raised? then g else ReadLoop(g.state, signalSet)
  {
  }

  lemma ProgressTrans(a: State, b: State, c: State)
    requires Progress(a, b) && Progress(b, c)
    ensures Progress(a, c)
  {
    var na, nb, nc := |a.serial.inbound|, |b.serial.inbound|, |c.serial.inbound|;
    assert c.serial.inbound == b.serial.inbound[nb - nc..];
    assert b.serial.inbound[nb - nc..] == a.serial.inbound[na - nb..][nb - nc..];
  }

  lemma ConsumeProgress(s: State, signalSet: bool)
    requires s.serial.open && s.serial.inbound != []
    ensures Progress(s, Consume(s, Deframe(true, s.serial.inbound, signalSet).rest))
  {
  }

  /** The whole reading loop keeps the session invariant: the port stays as it
      was, inbound bytes are only consumed, and sent frames and notices only grow. */
  lemma {:induction false} ReadLoopProgress(s: State, signalSet: bool)
    ensures Progress(s, ReadLoop(s, signalSet).state)
    decreases |s.serial.inbound|
  {
    if signalSet || !s.serial.open || s.serial.inbound == [] {
    } else {
      var d := Deframe(true, s.serial.inbound, signalSet);
      var t := Consume(s, d.rest);
      ConsumeProgress(s, signalSet);
      if d.payload == [] {
        ReadLoopProgress(t, signalSet);
        ProgressTrans(s, t, ReadLoop(t, signalSet).state);
      } else {
        var g := CaniConductor.GoStep(t, d.payload);
        CaniConductor.GoPreserves(t, d.payload);
        assert Progress(t, g.state);
        ProgressTrans(s, t, g.state);
        if g.result.Ok? {
          ReadLoopProgress(g.state, signalSet);
          ProgressTrans(s, g.state, ReadLoop(g.state, signalSet).state);
        }
      }
    }
  }

  /** Unless the dispatcher raised or the stop signal was set, reading on an open
      port goes on until every inbound byte is consumed. */
  lemma {:induction false} ReadLoopDrains(s: State)
    requires s.serial.open
    requires ReadLoop(s, false).result.Ok?
    ensures ReadLoop(s, false).state.serial.inbound == []
    decreases |s.serial.inbound|
  {
    if s.serial.inbound != [] {
      var d := Deframe(true, s.serial.inbound, false);
      var t := Consume(s, d.rest);
      if d.payload == [] {
        ReadLoopDrains(t);
      } else {
        var g := CaniConductor.GoStep(t, d.payload);
        CaniConductor.GoPreserves(t, d.payload);
        ReadLoopDrains(g.state);
      }
    }
  }

  /** The CaniThread reader, bound to the session and the dispatcher it feeds. */
  class CaniThread {
    const parent: CaniPy
    const conductor: CaniConductor.CaniConductor

    predicate Valid()
    {
      conductor.parent == parent && conductor.Valid()
    }

    constructor (parent: CaniPy, conductor: CaniConductor.CaniConductor)
      requires conductor.parent == parent && conductor.Valid()
      ensures this.parent == parent && this.conductor == conductor && Valid()
    {
      this.parent := parent;
      this.conductor := conductor;
    }

    /** thread_read: poll thread_buffer until the signal is set and pass every
        non-empty payload to the dispatcher. */
    method ThreadRead(signalSet: bool) returns (r: Result<()>)
      requires Valid()
      modifies parent
      ensures Step(parent.Snapshot(), r) == ReadLoop(old(parent.Snapshot()), signalSet)
    {
      r := Ok(());
      while !signalSet && parent.serial.open && parent.serial.inbound != []
        invariant r == Ok(())
        invariant ReadLoop(parent.Snapshot(), signalSet) == ReadLoop(old(parent.Snapshot()), signalSet)
        decreases |parent.serial.inbound|
      {
        ghost var s := parent.Snapshot();
        var buf, rest := ThreadBuffer(parent.serial.open, parent.serial.inbound, signalSet);
        parent.serial := parent.serial.(inbound := rest);
        ghost var t := parent.Snapshot();
        assert t == Consume(s, rest);
        if buf == [] {
          ReadLoopSkipsEmpty(s, signalSet, rest);
        } else {
          ReadLoopDispatches(s, signalSet, buf, rest);
          var res := conductor.Go(buf);
          CaniConductor.GoPreserves(t, buf);
          if res.Raised? {
            return res;
          }
        }
      }
    }
  }
}
