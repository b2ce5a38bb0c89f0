/** The line-buffering io.Writer of logger/writer.go and its fan-out
    MultiLogWriter, run sequentially (the mutex is not modelled). */
module Writer {
  import opened Wrappers

  newtype byte = x: int | 0 <= x < 256

  const Newline: byte := 10

  /** The writer's level string, as compared by logLine's switch. */
  datatype WriterLevel = DebugLevel | InfoLevel | WarnLevel | ErrorLevel | FatalLevel | OtherLevel(name: string)

  /** The logger method a line is sent to. */
  datatype Method = Debug | Info | Warn | Error

  /** One call made on the underlying logger. */
  datatype LogCall = LogCall(target: Method, line: seq<byte>)

  datatype LogWriter = LogWriter(level: WriterLevel, buffer: seq<byte>)

  /** logLine: Fatal is logged at Error so the process does not exit, and an
      unknown level falls back to Info. */
  function LogLine(level: WriterLevel, line: seq<byte>): (c: LogCall)
    ensures c.line == line
    ensures c.target == Error <==> level == ErrorLevel || level == FatalLevel
    ensures c.target == Info <==> level == InfoLevel || level.OtherLevel?
    ensures c.target == Debug <==> level == DebugLevel
    ensures c.target == Warn <==> level == WarnLevel
  {
    match level
    case DebugLevel => LogCall(Debug, line)
    case InfoLevel => LogCall(Info, line)
    case WarnLevel => LogCall(Warn, line)
    case ErrorLevel => LogCall(Error, line)
    case FatalLevel => LogCall(Error, line)
    case OtherLevel(_) => LogCall(Info, line)
  }

  /** Positions of the newlines among the first `i` bytes, in increasing order. */
  function NewlinesBefore(buf: seq<byte>, i: nat): (ps: seq<nat>)
    requires i <= |buf|
    ensures forall k :: 0 <= k < |ps| ==> ps[k] < i
  {
    if i == 0 then []
    else NewlinesBefore(buf, i - 1) + (if buf[i - 1] == Newline then [i - 1] else [])
  }

  lemma {:induction false} NewlinesBeforeExact(buf: seq<byte>, i: nat)
    requires i <= |buf|
    ensures forall j :: 0 <= j < i ==> (j in NewlinesBefore(buf, i) <==> buf[j] == Newline)
    ensures forall a, b :: 0 <= a < b < |NewlinesBefore(buf, i)| ==> NewlinesBefore(buf, i)[a] < NewlinesBefore(buf, i)[b]
    ensures |NewlinesBefore(buf, i)| == multiset(buf[..i])[Newline]
  {
    if i > 0 {
      NewlinesBeforeExact(buf, i - 1);
      assert buf[..i] == buf[..i - 1] + [buf[i - 1]];
    }
  }

  /** The calls made for the newlines at positions `ps`: each logs the whole
      prefix of the buffer before that newline. */
  function CallsAt(level: WriterLevel, buf: seq<byte>, ps: seq<nat>): (cs: seq<LogCall>)
    requires forall k :: 0 <= k < |ps| ==> ps[k] <= |buf|
    ensures |cs| == |ps|
    ensures forall k :: 0 <= k < |ps| ==> cs[k] == LogLine(level, buf[..ps[k]])
  {
    if |ps| == 0 then []
    else CallsAt(level, buf, ps[..|ps| - 1]) + [LogLine(level, buf[..ps[|ps| - 1]])]
  }

  /** `rest` is what follows the last newline of `buf`: a newline-free
      suffix, preceded by a newline unless it is all of `buf`. */
  predicate KeptAfterLastNewline(buf: seq<byte>, rest: seq<byte>)
  {
    && Newline !in rest
    && |rest| <= |buf| && buf[|buf| - |rest|..] == rest
    && (|rest| < |buf| ==> buf[|buf| - |rest| - 1] == Newline)
  }

  /** What Write keeps: the bytes after the last newline, or everything when
      there is none. */
  lemma RemainderAfterLastNewline(buf: seq<byte>, processed: nat)
    requires processed <= |buf|
    requires processed > 0 ==> buf[processed - 1] == Newline
    requires forall j :: processed <= j < |buf| ==> buf[j] != Newline
    ensures var rest := if processed > 0 then buf[processed..] else buf;
            && KeptAfterLastNewline(buf, rest)
            && (Newline !in buf ==> rest == buf)
  {
    if processed > 0 {
      assert buf[processed - 1] in buf;
    }
  }

  lemma NewlineCount(buf: seq<byte>)
    ensures |NewlinesBefore(buf, |buf|)| == multiset(buf)[Newline]
    ensures Newline !in buf ==> |NewlinesBefore(buf, |buf|)| == 0
  {
    NewlinesBeforeExact(buf, |buf|);
    assert buf[..|buf|] == buf;
  }

  /** The result of one Write. */
  datatype WriteResult = WriteResult(n: int, err: Option<string>, writer: LogWriter, calls: seq<LogCall>)

  /** One past the last of the positions `ps`, or 0 when there are none. */
  function LastEnd(ps: seq<nat>): nat
  {
    if |ps| == 0 then 0 else ps[|ps| - 1] + 1
  }

  /** Among the first `i` bytes, the last newline sits just before LastEnd,
      and none follows it. */
  lemma {:induction false} AfterLastNewline(buf: seq<byte>, i: nat)
    requires i <= |buf|
    ensures LastEnd(NewlinesBefore(buf, i)) <= i
    ensures LastEnd(NewlinesBefore(buf, i)) > 0 ==> buf[LastEnd(NewlinesBefore(buf, i)) - 1] == Newline
    ensures forall j :: LastEnd(NewlinesBefore(buf, i)) <= j < i ==> buf[j] != Newline
  {
    if i > 0 {
      AfterLastNewline(buf, i - 1);
      if buf[i - 1] == Newline {
        assert NewlinesBefore(buf, i) == NewlinesBefore(buf, i - 1) + [i - 1];
      } else {
        assert NewlinesBefore(buf, i) == NewlinesBefore(buf, i - 1) + [];
      }
    }
  }

  /** A call for one more newline position goes at the end. */
  lemma CallsAppend(level: WriterLevel, buf: seq<byte>, ps: seq<nat>, q: nat)
    requires forall k :: 0 <= k < |ps| ==> ps[k] <= |buf|
    requires q <= |buf|
    ensures CallsAt(level, buf, ps + [q]) == CallsAt(level, buf, ps) + [LogLine(level, buf[..q])]
  {
    assert (ps + [q])[..|ps|] == ps;
  }

  /** The newline scan of Write: one call per newline, in position order, and
      `processed` just past the last newline (0 when there is none). */
  method ScanLines(level: WriterLevel, buf: seq<byte>) returns (calls: seq<LogCall>, processed: nat)
    ensures processed == LastEnd(NewlinesBefore(buf, |buf|))
    ensures calls == CallsAt(level, buf, NewlinesBefore(buf, |buf|))
  {
    processed := 0;
    calls := [];
    ghost var ps: seq<nat> := [];
    var i := 0;
    while i < |buf|
      invariant 0 <= i <= |buf|
      invariant ps == NewlinesBefore(buf, i)
      invariant processed == LastEnd(ps)
      invariant calls == CallsAt(level, buf, ps)
    {
      if buf[i] == Newline {
        CallsAppend(level, buf, ps, i);
        calls := calls + [LogLine(level, buf[..i])];
        processed := i + 1;
        ps := ps + [i];
      } else {
        assert NewlinesBefore(buf, i + 1) == ps + [];
      }
      i := i + 1;
    }
  }

  /** LogWriter.Write: appends `p`, logs once per newline in position order,
      and keeps only what follows the last newline. */
  method Write(w: LogWriter, p: seq<byte>) returns (r: WriteResult)
    ensures r.n == |p| && r.err == None
    ensures r.writer.level == w.level
    ensures KeptAfterLastNewline(w.buffer + p, r.writer.buffer)
    ensures r.calls == CallsAt(w.level, w.buffer + p, NewlinesBefore(w.buffer + p, |w.buffer + p|))
    ensures |r.calls| == multiset(w.buffer + p)[Newline]
    ensures Newline !in w.buffer + p ==> r.calls == [] && r.writer.buffer == w.buffer + p
  {
    var buf := w.buffer + p;
    var calls, processed := ScanLines(w.level, buf);
    AfterLastNewline(buf, |buf|);
    var rest := if processed > 0 then buf[processed..] else buf;
    RemainderAfterLastNewline(buf, processed);
    NewlineCount(buf);
    r := WriteResult(|p|, None, LogWriter(w.level, rest), calls);
  }

  /** The result of one Flush. */
  datatype FlushResult = FlushResult(writer: LogWriter, calls: seq<LogCall>)

  /** LogWriter.Flush: logs a non-empty buffer once, as one line, and empties it. */
  function Flush(w: LogWriter): (r: FlushResult)
    ensures r.writer.buffer == [] && r.writer.level == w.level
    ensures |w.buffer| > 0 ==> r.calls == [LogLine(w.level, w.buffer)]
    ensures |w.buffer| == 0 ==> r.calls == [] && r.writer == w
  {
    if |w.buffer| > 0 then FlushResult(LogWriter(w.level, []), [LogLine(w.level, w.buffer)])
    else FlushResult(w, [])
  }

  /** A second Flush logs nothing and changes nothing. */
  lemma FlushTwiceIsFlushOnce(w: LogWriter)
    ensures Flush(Flush(w).writer).calls == []
    ensures Flush(Flush(w).writer).writer == Flush(w).writer
  {
  }

  /** The outcome of MultiLogWriter.Write over writers whose replies are given
      by `write`: `called` is how many writers were invoked, in order. */
  datatype MultiResult = MultiResult(n: int, err: Option<string>, called: nat)

  /** MultiLogWriter.Write: stops at the first writer that fails and returns
      its reply; otherwise reports all of `p` written. */
  method MultiWrite<W>(writers: seq<W>, write: (W, seq<byte>) -> (int, Option<string>), p: seq<byte>)
    returns (r: MultiResult)
    ensures r.called <= |writers|
    ensures forall j :: 0 <= j < r.called - 1 ==> write(writers[j], p).1.None?
    ensures r.err.None? ==> r.n == |p| && r.called == |writers|
                             && forall j :: 0 <= j < |writers| ==> write(writers[j], p).1.None?
    ensures r.err.Some? ==> 0 < r.called && (r.n, r.err) == write(writers[r.called - 1], p)
  {
    var i := 0;
    while i < |writers|
      invariant 0 <= i <= |writers|
      invariant forall j :: 0 <= j < i ==> write(writers[j], p).1.None?
    {
      var reply := write(writers[i], p);
      if reply.1.Some? {
        return MultiResult(reply.0, reply.1, i + 1);
      }
      i := i + 1;
    }
    return MultiResult(|p|, None, |writers|);
  }
}
