/** Newline-delimited framing over a pair of byte streams (internal/transport/stdio.go). */
module Framing {
  import opened Tasks

  type Byte = b: int | 0 <= b < 256

  const LF: Byte := 10
  const CR: Byte := 13

  type Bytes = seq<Byte>

  /** trimLineEnding: one LF, then one CR. */
  function TrimLineEnding(line: Bytes): Bytes {
    var l := if |line| > 0 && line[|line| - 1] == LF then line[..|line| - 1] else line;
    if |l| > 0 && l[|l| - 1] == CR then l[..|l| - 1] else l
  }

  /** Length of the first line, its LF included; all of the input if there is none. */
  function LineLength(input: Bytes): (n: nat)
    ensures n <= |input| && (input != [] ==> 0 < n)
    ensures LF !in input[..if n == 0 then 0 else n - 1]
    ensures n < |input| ==> input[n - 1] == LF
    ensures LF in input ==> n > 0 && input[n - 1] == LF
  {
    if input == [] then 0
    else if input[0] == LF then 1
    else
      var n := LineLength(input[1..]);
      assert input == [input[0]] + input[1..];
      assert n > 0 ==> input[..n] == [input[0]] + input[1..][..n - 1];
      n + 1
  }

  predicate EndsLine(line: Bytes) {
    |line| > 0 && line[|line| - 1] == LF
  }

  /** How the input ends: io.EOF or another read error. */
  datatype End = EOF | Broken

  /** The successive non-error results of Read on this input: one per line, and at EOF the unterminated
      rest if anything is left of it after trimming. Another error loses the rest. */
  function Frames(input: Bytes, end: End): seq<Bytes>
    decreases |input|
  {
    if input == [] then []
    else
      var n := LineLength(input);
      var data := TrimLineEnding(input[..n]);
      if EndsLine(input[..n]) then [data] + Frames(input[n..], end)
      else if end.EOF? && data != [] then [data] else []
  }

  /** What readLoop sends on the channel: the data if ReadBytes returned any bytes, and its error. */
  datatype ReadResult = ReadResult(data: Option<Bytes>, err: Option<End>)

  /** What Read makes of one: data that comes with io.EOF is delivered if it is not empty, data that
      comes with another error is not. */
  function Surfaced(r: ReadResult): seq<Bytes> {
    match r.data
    case None => []
    case Some(d) => if r.err == None || (r.err == Some(EOF) && d != []) then [d] else []
  }

  function Delivered(sent: seq<ReadResult>): seq<Bytes> {
    if sent == [] then [] else Surfaced(sent[0]) + Delivered(sent[1..])
  }

  lemma {:induction false} DeliveredSnoc(sent: seq<ReadResult>, r: ReadResult)
    ensures Delivered(sent + [r]) == Delivered(sent) + Delivered([r])
  {
    hide Surfaced;
    if sent == [] {
      assert sent + [r] == [r];
    } else {
      DeliveredSnoc(sent[1..], r);
      assert (sent + [r])[0] == sent[0] && (sent + [r])[1..] == sent[1..] + [r];
      Joined(Surfaced(sent[0]), Delivered(sent[1..]), Delivered([r]));
    }
  }

  class LineReader {
    const input: Bytes
    const end: End
    var pos: nat

    constructor (input: Bytes, end: End)
      ensures this.input == input && this.end == end && pos == 0
    {
      this.input := input;
      this.end := end;
      pos := 0;
    }

    /** bufio.Reader.ReadBytes('\n'). */
    method ReadBytes() returns (line: Bytes, err: Option<End>)
      requires pos <= |input|
      modifies this`pos
      ensures pos <= |input| && line == input[old(pos)..][..LineLength(input[old(pos)..])]
      ensures input[old(pos)..] == line + input[pos..] && err == (if EndsLine(line) then None else Some(end))
    {
      hide *;
      var start := pos;
      while pos < |input| && input[pos] != LF
        invariant start <= pos <= |input|
        invariant forall i :: start <= i < pos ==> input[i] != LF
      {
        pos := pos + 1;
      }
      err := if pos == |input| then Some(end) else None;
      if err == None {
        pos := pos + 1;
      }
      line := input[start..pos];
      LineAt(input, start, pos, err.Some?);
    }

    /** readLoop. After `room` sends its select finds the connection closed; until then it sends. */
    method ReadLoop(room: nat) returns (sent: seq<ReadResult>)
      requires pos == 0
      modifies this`pos
      ensures |sent| <= room && forall i :: 0 <= i < |sent| - 1 ==> sent[i].err == None
      ensures if |sent| > 0 && sent[|sent| - 1].err.Some?
              then sent[|sent| - 1].err == Some(end) && Delivered(sent) == Frames(input, end) && pos == |input|
              else |sent| == room <= |Frames(input, end)| && Delivered(sent) == Frames(input, end)[..room]
    {
      hide Frames, Delivered, Surfaced, TrimLineEnding, LineLength, EndsLine;
      sent := [];
      DeliveredNone();
      assert input[0..] == input;
      while true
        invariant pos <= |input| && |sent| <= room && |Delivered(sent)| == |sent|
        invariant forall i :: 0 <= i < |sent| ==> sent[i].err == None
        invariant Delivered(sent) + Frames(input[pos..], end) == Frames(input, end)
        decreases |input| - pos
      {
        ghost var rest, before := input[pos..], sent;
        var line, err := ReadBytes();
        var r := ReadResult(if |line| > 0 then Some(TrimLineEnding(line)) else None, err);
        if |sent| == room {
          return;
        }
        LineTaken(rest, line, input[pos..]);
        FirstFrame(rest, r, end);
        DeliveredSnoc(sent, r);
        sent := sent + [r];
        Joined(Delivered(before), Delivered([r]), Frames(input[pos..], end));
        if err.Some? {
          return;
        }
      }
    }
  }

  lemma DeliveredNone()
    ensures Delivered([]) == []
  {
  }

  lemma LineTaken(rest: Bytes, line: Bytes, tail: Bytes)
    requires line == rest[..LineLength(rest)] && rest == line + tail
    ensures tail == rest[LineLength(rest)..] && (EndsLine(line) ==> |line| > 0)
    ensures LineLength(rest) == |rest| ==> tail == []
  {
  }

  lemma Joined<T>(a: seq<T>, b: seq<T>, c: seq<T>)
    ensures a + b + c == a + (b + c) && b + [] == b
  {
  }

  lemma LineAt(input: Bytes, start: nat, pos: nat, eof: bool)
    requires start <= pos <= |input| && forall i :: start <= i < pos - 1 ==> input[i] != LF
    requires if eof then pos == |input| && LF !in input[start..] else start < pos && input[pos - 1] == LF
    ensures input[start..pos] == input[start..][..LineLength(input[start..])]
    ensures input[start..] == input[start..pos] + input[pos..] && eof == !EndsLine(input[start..pos])
  {
    hide LineLength;
    LineIs(input[start..], pos - start);
    assert eof && start < pos ==> input[start..pos][pos - start - 1] in input[start..];
  }

  lemma LineIs(rest: Bytes, k: nat)
    requires k <= |rest| && (forall i :: 0 <= i < k - 1 ==> rest[i] != LF)
    requires (0 < k && rest[k - 1] == LF) || (k == |rest| && LF !in rest)
    ensures LineLength(rest) == k
  {
    var n := LineLength(rest);
    if n > 0 {
      forall i | 0 <= i < n - 1
        ensures rest[i] != LF
      {
        assert rest[..n - 1][i] == rest[i];
      }
    }
  }

  /** One trip of readLoop delivers the first frame of what is left. */
  lemma FirstFrame(rest: Bytes, r: ReadResult, end: End)
    requires var line := rest[..LineLength(rest)];
             r == ReadResult(if |line| > 0 then Some(TrimLineEnding(line)) else None,
                 if EndsLine(line) then None else Some(end))
    ensures Delivered([r]) + (if r.err.Some? then [] else Frames(rest[LineLength(rest)..], end)) == Frames(rest, end)
    ensures r.err == None ==> |Delivered([r])| == 1
    ensures r.err.Some? ==> LineLength(rest) == |rest|
  {
    hide Delivered, TrimLineEnding, LineLength, Frames;
    DeliveredOne(r);
    NextLine(rest, end);
  }

  lemma DeliveredOne(r: ReadResult)
    ensures Delivered([r]) == Surfaced(r)
  {
    assert [r][1..] == [];
  }

  lemma NextLine(input: Bytes, end: End)
    ensures LineLength(input) == 0 <==> input == []
    ensures input == [] ==> Frames(input, end) == []
    ensures var n := LineLength(input);
            var data := TrimLineEnding(input[..n]);
            input != [] ==>
              Frames(input, end) == if EndsLine(input[..n]) then [data] + Frames(input[n..], end)
                                    else if end.EOF? && data != [] then [data] else []
    ensures !EndsLine(input[..LineLength(input)]) ==> LineLength(input) == |input|
  {
    hide TrimLineEnding;
  }

  datatype WriteOutcome = Sent | ContextDone | ConnClosed | WriterFailed

  /** The write side of a connection. `written` is what the underlying writer has received. */
  class Conn {
    var written: Bytes
    var closed: bool

    constructor ()
      ensures written == [] && !closed
    {
      written := [];
      closed := false;
    }

    /** One critical section under writeMu; the writer gets payload and LF in a single call. If `fault` is
        given, the writer takes that many bytes at most and reports an error. */
    method Write(ctxDone: bool, payload: Bytes, fault: Option<nat>) returns (out: WriteOutcome)
      modifies this`written
      ensures out == if ctxDone then ContextDone else if closed then ConnClosed
                     else if fault.Some? then WriterFailed else Sent
      ensures out == Sent ==> written == old(written) + Stream([payload])
      ensures out == WriterFailed ==>
                && (fault.value <= |payload| ==> written == old(written) + payload[..fault.value])
                && (fault.value > |payload| ==> written == old(written) + Stream([payload]))
      ensures out.ContextDone? || out.ConnClosed? ==> written == old(written)
    {
      if ctxDone {
        return ContextDone;
      }
      if closed {
        return ConnClosed;
      }
      var frame: Bytes := [];
      frame := frame + payload;
      frame := frame + [LF];
      assert Stream([payload]) == payload + [LF] == frame;
      if fault.Some? {
        written := written + if fault.value < |frame| then frame[..fault.value] else frame;
        return WriterFailed;
      }
      written := written + frame;
      return Sent;
    }

    method Close()
      modifies this`closed
      ensures closed
    {
      closed := true;
    }
  }

  /** The bytes of a series of writes. Writes are serialised, so a stream is some order of its frames. */
  function Stream(ps: seq<Bytes>): Bytes {
    if ps == [] then [] else ps[0] + [LF] + Stream(ps[1..])
  }

  lemma {:induction false} StreamJoins(a: seq<Bytes>, b: seq<Bytes>)
    ensures Stream(a + b) == Stream(a) + Stream(b)
  {
    if a == [] {
      assert a + b == b;
    } else {
      StreamJoins(a[1..], b);
      assert (a + b)[0] == a[0] && (a + b)[1..] == a[1..] + b;
      Joined(a[0] + [LF], Stream(a[1..]), Stream(b));
    }
  }

  function TrimAll(ps: seq<Bytes>): (r: seq<Bytes>)
    ensures |r| == |ps| && forall i :: 0 <= i < |ps| ==> r[i] == TrimLineEnding(ps[i] + [LF])
  {
    seq(|ps|, i requires 0 <= i < |ps| => TrimLineEnding(ps[i] + [LF]))
  }

  lemma {:induction false} FramesOfStream(ps: seq<Bytes>, end: End)
    requires forall i :: 0 <= i < |ps| ==> LF !in ps[i]
    ensures Frames(Stream(ps), end) == TrimAll(ps)
  {
    if ps != [] {
      hide Frames, TrimLineEnding, LineLength, EndsLine, TrimAll;
      FramesOfStream(ps[1..], end);
      FirstOfStream(ps[0], Stream(ps[1..]), end);
      TrimAllStep(ps);
    } else {
      assert TrimAll(ps) == [];
    }
  }

  lemma TrimAllStep(ps: seq<Bytes>)
    requires ps != []
    ensures TrimAll(ps) == [TrimLineEnding(ps[0] + [LF])] + TrimAll(ps[1..])
  {
    hide TrimLineEnding;
  }

  /** A newline-free payload written first is the first frame read. */
  lemma FirstOfStream(p: Bytes, tail: Bytes, end: End)
    requires LF !in p
    ensures Frames(p + [LF] + tail, end) == [TrimLineEnding(p + [LF])] + Frames(tail, end)
  {
    hide TrimLineEnding;
    var line := p + [LF];
    var all := line + tail;
    assert forall i :: 0 <= i < |p| ==> all[i] == p[i];
    LineIs(all, |line|);
    assert all[..|line|] == line && all[|line|..] == tail;
  }

  function Newlines(b: Bytes): nat {
    if b == [] then 0 else (if b[0] == LF then 1 else 0) + Newlines(b[1..])
  }

  lemma {:induction false} NewlinesAdd(a: Bytes, b: Bytes)
    ensures Newlines(a + b) == Newlines(a) + Newlines(b)
    ensures LF in a <==> Newlines(a) > 0
  {
    if a == [] {
      assert a + b == b;
    } else {
      NewlinesAdd(a[1..], b);
      assert (a + b)[1..] == a[1..] + b;
      assert a == [a[0]] + a[1..];
    }
  }

  /** Every newline ends a frame. */
  lemma {:induction false} FramesAtLeast(input: Bytes, end: End)
    ensures |Frames(input, end)| >= Newlines(input)
    decreases |input|
  {
    if input != [] {
      hide *;
      var n := LineLength(input);
      var line, rest := input[..n], input[n..];
      LineNewlines(input);
      CountNext(input, end);
      assert input == line + rest;
      if EndsLine(line) {
        FramesAtLeast(rest, end);
        NewlinesAdd(line, rest);
      } else {
        assert line == input;
      }
    }
  }

  lemma CountNext(input: Bytes, end: End)
    requires input != []
    ensures var n := LineLength(input);
            if EndsLine(input[..n]) then n > 0 && |Frames(input, end)| == 1 + |Frames(input[n..], end)|
            else n == |input|
  {
    hide *;
    NextLine(input, end);
  }

  lemma LineNewlines(input: Bytes)
    requires input != []
    ensures var line := input[..LineLength(input)]; Newlines(line) == if EndsLine(line) then 1 else 0
  {
    var n := LineLength(input);
    var line := input[..n];
    NewlinesAdd(input[..n - 1], [line[n - 1]]);
    assert line == input[..n - 1] + [line[n - 1]];
    assert Newlines([line[n - 1]]) == if line[n - 1] == LF then 1 else 0;
  }

  lemma {:induction false} StreamNewlines(ps: seq<Bytes>)
    ensures Newlines(Stream(ps)) >= |ps|
    ensures (exists i :: 0 <= i < |ps| && LF in ps[i]) ==> Newlines(Stream(ps)) > |ps|
  {
    if ps != [] {
      StreamNewlines(ps[1..]);
      NewlinesAdd(ps[0] + [LF], Stream(ps[1..]));
      NewlinesAdd(ps[0], [LF]);
      assert Newlines([LF]) == 1;
      if i :| 0 <= i < |ps| && LF in ps[i] {
        assert i > 0 ==> ps[1..][i - 1] == ps[i];
      }
    }
  }

  /** A payload survives framing: it holds no LF and does not end in CR. It may be empty. */
  predicate IsClean(p: Bytes) {
    LF !in p && (p == [] || p[|p| - 1] != CR)
  }

  /** The reader recovers exactly the payloads written, in write order, if and only if every one of
      them is clean, however the stream ends. */
  lemma RoundTripIff(ps: seq<Bytes>, end: End)
    ensures Frames(Stream(ps), end) == ps <==> forall i :: 0 <= i < |ps| ==> IsClean(ps[i])
  {
    if forall i :: 0 <= i < |ps| ==> LF !in ps[i] {
      FramesOfStream(ps, end);
      forall i | 0 <= i < |ps|
        ensures TrimAll(ps)[i] == ps[i] <==> IsClean(ps[i])
      {
        TrimIff(ps[i]);
      }
    } else {
      StreamNewlines(ps);
      FramesAtLeast(Stream(ps), end);
    }
  }

  lemma TrimIff(p: Bytes)
    requires LF !in p
    ensures TrimLineEnding(p + [LF]) == p <==> IsClean(p)
  {
    assert (p + [LF])[..|p|] == p;
  }

  /** A frame as read from a payload p: p without the one CR it may end in. */
  predicate ReadsAs(p: Bytes, r: Bytes) {
    if p != [] && p[|p| - 1] == CR then p == r + [CR] else r == p
  }

  lemma TrimReads(p: Bytes, r: Bytes)
    requires LF !in p
    ensures r == TrimLineEnding(p + [LF]) <==> ReadsAs(p, r)
  {
    assert (p + [LF])[..|p|] == p;
    if p != [] && p[|p| - 1] == CR {
      assert p == p[..|p| - 1] + [CR];
      assert p == r + [CR] ==> r == p[..|p| - 1];
    }
  }

  /** Payloads without LF are read one by one, each as it is or without the one CR it ends in; what follows
      the last LF is read the same way at EOF unless nothing is left of it, and lost on another error. */
  lemma StreamReads(ps: seq<Bytes>, tail: Bytes, end: End)
    requires (forall i :: 0 <= i < |ps| ==> LF !in ps[i]) && LF !in tail
    ensures var fs := Frames(Stream(ps) + tail, end);
            && |ps| <= |fs| <= |ps| + 1
            && (forall i :: 0 <= i < |ps| ==> ReadsAs(ps[i], fs[i]))
            && (|fs| == |ps| <==> end == Broken || ReadsAs(tail, []))
            && (|fs| > |ps| ==> ReadsAs(tail, fs[|ps|]))
    decreases |ps|
  {
    if ps == [] {
      TailReads(tail, end);
      assert Stream([]) + tail == tail;
    } else {
      hide *;
      StreamReads(ps[1..], tail, end);
      FirstReads(ps, tail, end);
    }
  }

  lemma FirstReads(ps: seq<Bytes>, tail: Bytes, end: End)
    requires ps != [] && LF !in ps[0]
    ensures exists r :: ReadsAs(ps[0], r) && Frames(Stream(ps) + tail, end) == [r] + Frames(Stream(ps[1..]) + tail, end)
  {
    hide *;
    StreamStep(ps[0], ps[1..]);
    assert [ps[0]] + ps[1..] == ps;
    Joined(ps[0] + [LF], Stream(ps[1..]), tail);
    FirstOfStream(ps[0], Stream(ps[1..]) + tail, end);
    TrimReads(ps[0], TrimLineEnding(ps[0] + [LF]));
  }

  lemma TailReads(tail: Bytes, end: End)
    requires LF !in tail
    ensures var fs := Frames(tail, end);
            && |fs| <= 1 && (|fs| == 0 <==> end == Broken || ReadsAs(tail, []))
            && (|fs| == 1 ==> ReadsAs(tail, fs[0]))
  {
    hide LineLength;
    LineIs(tail, |tail|);
    NextLine(tail, end);
    assert tail[..|tail|] == tail;
    assert tail != [] && tail[|tail| - 1] == CR ==> tail == tail[..|tail| - 1] + [CR];
  }

  /** A write that failed after part of its frame: that part is glued to the next payload written. The
      reader gets exactly the payloads before, the glued one and those after it if and only if these are
      clean, so one lost frame costs one more and then the reader is in step again. */
  lemma FailedWriteGlues(before: seq<Bytes>, part: Bytes, next: Bytes, after: seq<Bytes>, end: End)
    ensures var ps := before + [part + next] + after;
            var received := Stream(before) + part + Stream([next] + after);
            Frames(received, end) == ps <==> forall i :: 0 <= i < |ps| ==> IsClean(ps[i])
  {
    var ps := before + [part + next] + after;
    hide *;
    Joined(before, [part + next], after);
    StreamJoins(before, [part + next] + after);
    StreamStep(next, after);
    StreamStep(part + next, after);
    Joined(part, next, [LF]);
    Joined(part, next + [LF], Stream(after));
    Joined(Stream(before), part, Stream([next] + after));
    RoundTripIff(ps, end);
  }

  lemma StreamStep(p: Bytes, ps: seq<Bytes>)
    ensures Stream([p] + ps) == p + [LF] + Stream(ps)
  {
    assert ([p] + ps)[1..] == ps;
  }
}
