/** LF framing of a TCP stream (section 3.4.2 of RFC 6587) with a size cut-off, against the plain line
    splitter that replays files. */
module TcpFraming {
  import opened Common

  const LF: byte := 10

  /** The index of the first LF, or the length when there is none. */
  function FirstLf(s: Bytes): (i: nat)
    ensures i <= |s| && (i < |s| ==> s[i] == LF)
    ensures forall j :: 0 <= j < i ==> s[j] != LF
  {
    if s == [] || s[0] == LF then 0 else 1 + FirstLf(s[1..])
  }

  /** What is known after some bytes: the frames they complete, the bytes still waiting for an LF, and
      whether a frame outgrew the limit, which ends the connection. */
  datatype Progress = Progress(frames: seq<Bytes>, buffer: Bytes, stopped: bool)

  function Scan(s: Bytes, max: nat): Progress
    decreases |s|
  {
    var i := FirstLf(s);
    if i > max then Progress([s[..max + 1]], [], true)
    else if i == |s| then Progress([], s, false)
    else
      var rest := Scan(s[i + 1..], max);
      rest.(frames := [s[..i]] + rest.frames)
  }

  /** The frames of a whole stream: LF-separated up to the first frame longer than `max`, then exactly
      `max + 1` bytes of that frame and nothing more; a non-empty tail is a frame. */
  function Frames(s: Bytes, max: nat): seq<Bytes>
    decreases |s|
  {
    var i := FirstLf(s);
    if i > max then [s[..max + 1]]
    else if i == |s| then (if s == [] then [] else [s])
    else [s[..i]] + Frames(s[i + 1..], max)
  }

  /** The plain line splitter. */
  function Lines(s: Bytes): seq<Bytes>
    decreases |s|
  {
    var i := FirstLf(s);
    if s == [] then []
    else if i == |s| then [s]
    else [s[..i]] + Lines(s[i + 1..])
  }

  // ---- properties of the specification -----------------------------------------------------------

  lemma FirstLfUnique(s: Bytes, i: nat)
    requires i <= |s| && (i < |s| ==> s[i] == LF) && forall j :: 0 <= j < i ==> s[j] != LF
    ensures FirstLf(s) == i
  {
  }

  lemma FirstLfAppend(s: Bytes, more: Bytes)
    ensures FirstLf(s) < |s| ==> FirstLf(s + more) == FirstLf(s)
    ensures FirstLf(s) == |s| ==> FirstLf(s + more) >= |s|
  {
    var k := FirstLf(s + more);
    assert k < |s| ==> (s + more)[k] == s[k];
    if FirstLf(s) < |s| {
      FirstLfUnique(s + more, FirstLf(s));
    }
  }

  /** One more frame in front. */
  lemma ScanCons(frame: Bytes, rest: Bytes, max: nat)
    requires FirstLf(frame) == |frame| <= max
    ensures Scan(frame + [LF] + rest, max) ==
            Scan(rest, max).(frames := [frame] + Scan(rest, max).frames)
  {
    var s := frame + [LF] + rest;
    FirstLfUnique(s, |frame|);
    assert s[|frame| + 1..] == rest && s[..|frame|] == frame;
  }

  /** Scanning can be interrupted anywhere: what follows is scanned together with the waiting bytes. */
  lemma {:induction false} ScanResumes(s: Bytes, more: Bytes, max: nat)
    requires !Scan(s, max).stopped
    ensures var before := Scan(s, max);
            var after := Scan(before.buffer + more, max);
            Scan(s + more, max) == after.(frames := before.frames + after.frames)
    decreases |s|
  {
    var i := FirstLf(s);
    if i < |s| {
      var frame, rest := s[..i], s[i + 1..];
      FirstLfUnique(frame, i);
      assert s == frame + [LF] + rest;
      assert s + more == frame + [LF] + (rest + more);
      ScanCons(frame, rest, max);
      ScanCons(frame, rest + more, max);
      ScanResumes(rest, more, max);
      hide Scan;
      Regroup([frame], Scan(rest, max).frames, Scan(Scan(rest, max).buffer + more, max).frames);
    } else {
      var after := Scan(s + more, max);
      assert [] + after.frames == after.frames;
    }
  }

  /** Once a frame has outgrown the limit, later bytes change nothing. */
  lemma {:induction false} ScanStopIsFinal(s: Bytes, more: Bytes, max: nat)
    requires Scan(s, max).stopped
    ensures Scan(s + more, max) == Scan(s, max)
    decreases |s|
  {
    var i := FirstLf(s);
    FirstLfAppend(s, more);
    if i > max {
      assert (s + more)[..max + 1] == s[..max + 1];
    } else {
      assert (s + more)[i + 1..] == s[i + 1..] + more;
      assert (s + more)[..i] == s[..i];
      ScanStopIsFinal(s[i + 1..], more, max);
    }
  }

  /** The frames of a stream are what scanning all of it completes, plus a non-empty tail. */
  lemma {:induction false} FramesAreScanned(s: Bytes, max: nat)
    ensures var p := Scan(s, max);
            Frames(s, max) == p.frames + (if !p.stopped && p.buffer != [] then [p.buffer] else [])
    decreases |s|
  {
    var i := FirstLf(s);
    if i <= max && i < |s| {
      FramesAreScanned(s[i + 1..], max);
    }
  }

  /** The frames that ended at an LF. */
  function WholeFrames(p: Progress): seq<Bytes> {
    if p.stopped && p.frames != [] then p.frames[..|p.frames| - 1] else p.frames
  }

  /** The waiting bytes never hold an LF or more than `max` bytes; frames that ended at an LF hold none
      and fit the limit; and a scan stops exactly with a last frame of `max + 1` bytes. */
  lemma {:induction false} ScanBounds(s: Bytes, max: nat)
    ensures var p := Scan(s, max);
            && |p.buffer| <= max && FirstLf(p.buffer) == |p.buffer|
            && (p.stopped ==> p.frames != [] && |p.frames[|p.frames| - 1]| == max + 1)
            && (forall f :: f in WholeFrames(p) ==> FirstLf(f) == |f| <= max)
    decreases |s|
  {
    var i := FirstLf(s);
    if i <= max && i < |s| {
      var rest := Scan(s[i + 1..], max);
      ScanBounds(s[i + 1..], max);
      FirstLfUnique(s[..i], i);
      assert WholeFrames(Scan(s, max)) == [s[..i]] + WholeFrames(rest);
    }
  }

  function Rejoin(frames: seq<Bytes>): Bytes {
    if frames == [] then [] else frames[0] + [LF] + Rejoin(frames[1..])
  }

  /** Byte conservation: rejoining the frames with LF, plus the waiting bytes, gives back everything. */
  lemma {:induction false} ScanConserves(s: Bytes, max: nat)
    requires !Scan(s, max).stopped
    ensures Rejoin(Scan(s, max).frames) + Scan(s, max).buffer == s
    decreases |s|
  {
    var i := FirstLf(s);
    if i < |s| {
      ScanConserves(s[i + 1..], max);
      RejoinStep(s, i, Scan(s[i + 1..], max).frames, Scan(s[i + 1..], max).buffer);
    }
  }

  lemma RejoinStep(s: Bytes, i: nat, frames: seq<Bytes>, buffer: Bytes)
    requires i < |s| && s[i] == LF && Rejoin(frames) + buffer == s[i + 1..]
    ensures Rejoin([s[..i]] + frames) + buffer == s
  {
    hide Rejoin;
    RejoinCons(s[..i], frames);
    Regroup(s[..i] + [LF], Rejoin(frames), buffer);
    assert s == s[..i] + [LF] + s[i + 1..];
  }

  lemma Regroup<T>(a: seq<T>, b: seq<T>, c: seq<T>)
    ensures (a + b) + c == a + (b + c)
  {
  }

  lemma RejoinCons(frame: Bytes, frames: seq<Bytes>)
    ensures Rejoin([frame] + frames) == frame + [LF] + Rejoin(frames)
  {
    assert ([frame] + frames)[1..] == frames;
  }

  /** Every line but the last fits the limit, and the last exceeds it by at most one byte. */
  predicate LinesFit(lines: seq<Bytes>, max: nat) {
    forall k :: 0 <= k < |lines| ==> |lines[k]| <= if k == |lines| - 1 then max + 1 else max
  }

  lemma LinesFitCons(line: Bytes, lines: seq<Bytes>, max: nat)
    ensures LinesFit([line] + lines, max) <==>
            if lines == [] then |line| <= max + 1 else |line| <= max && LinesFit(lines, max)
  {
    var all := [line] + lines;
    assert forall k :: 0 <= k < |lines| ==> all[k + 1] == lines[k];
    if LinesFit(all, max) {
      assert |all[0]| <= if 0 == |all| - 1 then max + 1 else max;
      forall k | 0 <= k < |lines| ensures |lines[k]| <= if k == |lines| - 1 then max + 1 else max {
        assert |all[k + 1]| <= if k + 1 == |all| - 1 then max + 1 else max;
      }
    }
    if lines != [] && |line| <= max && LinesFit(lines, max) {
      forall k | 0 <= k < |all| ensures |all[k]| <= if k == |all| - 1 then max + 1 else max {
        if k > 0 {
          assert |lines[k - 1]| <= if k - 1 == |lines| - 1 then max + 1 else max;
        }
      }
    }
  }

  /** A connection's frames are the file splitter's lines if and only if the lines fit. */
  lemma {:induction false} TcpAgreesWithFileIff(s: Bytes, max: nat)
    ensures Frames(s, max) == Lines(s) <==> LinesFit(Lines(s), max)
    decreases |s|
  {
    var i := FirstLf(s);
    if i < |s| {
      var rest := s[i + 1..];
      LinesFitCons(s[..i], Lines(rest), max);
      LinesNonEmpty(rest);
      if i <= max {
        TcpAgreesWithFileIff(rest, max);
        assert Frames(s, max)[1..] == Frames(rest, max) && Lines(s)[1..] == Lines(rest);
      } else {
        assert |Frames(s, max)| == 1 && |Frames(s, max)[0]| == max + 1;
        assert Lines(s)[0] == s[..i];
        assert rest == [] && i == max + 1 ==> Lines(s) == [s[..i]];
      }
    } else if s != [] {
      LinesFitCons(s, [], max);
      assert [s] + [] == [s];
      assert Lines(s)[0] == s;
      assert i == max + 1 ==> s[..max + 1] == s;
    }
  }

  /** A line of two bytes under a limit of one. */
  lemma LongLineEndsConnection()
    ensures Lines([97, 97, LF, 97]) == [[97, 97], [97]] && Frames([97, 97, LF, 97], 1) == [[97, 97]]
  {
    var s: Bytes := [97, 97, LF, 97];
    FirstLfUnique(s, 2);
    assert s[..2] == [97, 97] && s[3..] == [97];
    assert FirstLf([97]) == 1;
    assert [97 as byte][1..] == [];
  }

  lemma LinesNonEmpty(s: Bytes)
    ensures s != [] <==> Lines(s) != []
  {
  }

  // ---- the file collector ------------------------------------------------------------------------

  /** Reads one line at a time, each with its LF, and strips exactly one LF. */
  method Replay(data: Bytes) returns (results: seq<Bytes>)
    ensures results == Lines(data)
  {
    results := [];
    var rest := data;
    while rest != []
      invariant results + Lines(rest) == Lines(data)
      decreases |rest|
    {
      var i := FirstLf(rest);
      var line := if i < |rest| then rest[..i + 1] else rest;
      var raw := if line[|line| - 1] == LF then line[..|line| - 1] else line;
      assert raw == if i < |rest| then rest[..i] else rest;
      assert Lines(rest) == [raw] + Lines(rest[|line|..]);
      results := results + [raw];
      rest := rest[|line|..];
    }
  }

  // ---- the TCP collector -------------------------------------------------------------------------

  /** How the network delivers: up to `count` bytes arrive for a receive, or none do before the timeout. */
  datatype Arrival = Arrives(count: nat) | Silence

  datatype Received = Chunk(data: Bytes) | TimedOut

  /** A connection whose peer sends `stream` and closes. The plan fixes every split of the stream into
      receives that honour the requested size, and when a receive times out. */
  class Connection {
    const stream: Bytes
    var pos: nat
    var plan: seq<Arrival>

    constructor (stream: Bytes, plan: seq<Arrival>)
      ensures this.stream == stream && this.plan == plan && pos == 0
    {
      this.stream, this.plan, pos := stream, plan, 0;
    }

    method Recv(limit: nat) returns (r: Received)
      requires limit > 0 && pos <= |stream|
      modifies this
      ensures old(pos) <= pos <= |stream|
      ensures r.TimedOut? ==> pos == old(pos) && |plan| < |old(plan)|
      ensures r.Chunk? ==> r.data == stream[old(pos)..pos] && |r.data| <= limit && |plan| <= |old(plan)|
      ensures r.Chunk? ==> (r.data == [] <==> old(pos) == |stream|)
      ensures r.TimedOut? <==> old(plan) != [] && old(plan)[0] == Silence
    {
      var want := limit;
      if plan != [] {
        var next := plan[0];
        plan := plan[1..];
        match next
        case Silence => return TimedOut;
        case Arrives(count) => want := Min(limit, Max(1, count));
      }
      var n := Min(want, |stream| - pos);
      r := Chunk(stream[pos..pos + n]);
      pos := pos + n;
    }
  }

  /** How a connection ends: by the peer, by the read timeout (rejecting what was waiting), or by the
      size limit. */
  datatype Ending = Closed | Idle(rejected: Bytes) | Oversized

  /** The framing loop of `_handle_conn`. Whatever the plan: up to the bytes received, the emitted frames
      are those of the received bytes alone; unless the connection idles out they are the frames of the
      whole stream. */
  method HandleConnection(conn: Connection, max: nat) returns (emitted: seq<Bytes>, ending: Ending)
    requires conn.pos == 0
    modifies conn
    ensures conn.pos <= |conn.stream|
    ensures !ending.Idle? ==> emitted == Frames(conn.stream, max)
    ensures ending.Idle? ==>
              var p := Scan(conn.stream[..conn.pos], max);
              !p.stopped && emitted == p.frames && ending.rejected == p.buffer
    ensures ending.Closed? ==> conn.pos == |conn.stream|
    ensures ending.Oversized? <==> Scan(conn.stream[..conn.pos], max).stopped
  {
    hide Scan, Frames;
    emitted := [];
    var buffer: Bytes := [];
    assert conn.stream[..0] == [];
    EmptyScan(max);
    while true
      invariant conn.pos <= |conn.stream|
      invariant |buffer| <= max && FirstLf(buffer) == |buffer|
      invariant Scan(conn.stream[..conn.pos], max) == Progress(emitted, buffer, false)
      decreases |conn.stream| - conn.pos
    {
      var remaining := max + 1 - |buffer|;
      ghost var received := conn.stream[..conn.pos];
      var r := conn.Recv(Min(65535, Max(1, remaining)));
      if r.TimedOut? {
        return emitted, Idle(buffer);
      }
      var chunk := r.data;
      if chunk == [] {
        assert conn.stream[..conn.pos] == conn.stream;
        FramesAreScanned(conn.stream, max);
        if buffer != [] {
          emitted := emitted + [buffer];
        }
        return emitted, Closed;
      }
      assert conn.stream[..conn.pos] == received + chunk;
      ScanResumes(received, chunk, max);
      buffer := buffer + chunk;
      assert |buffer| <= max + 1;
      emitted, buffer := DrainFrames(emitted, buffer, max, conn.stream[..conn.pos]);
      if |buffer| > max {
        FullBufferStops(buffer, max);
        emitted := emitted + [buffer];
        StoppedFrames(conn.stream, conn.pos, max);
        return emitted, Oversized;
      }
      WaitingBuffer(buffer, max);
    }
  }

  lemma EmptyScan(max: nat)
    ensures Scan([], max) == Progress([], [], false)
  {
  }

  /** A buffer without an LF is waiting while it fits, and stops the connection when it does not. */
  lemma WaitingBuffer(buffer: Bytes, max: nat)
    requires FirstLf(buffer) == |buffer| <= max
    ensures Scan(buffer, max) == Progress([], buffer, false)
  {
  }

  lemma FullBufferStops(buffer: Bytes, max: nat)
    requires FirstLf(buffer) == |buffer| == max + 1
    ensures Scan(buffer, max) == Progress([buffer], [], true)
  {
    assert buffer[..max + 1] == buffer;
  }

  lemma StoppedFrames(stream: Bytes, pos: nat, max: nat)
    requires pos <= |stream| && Scan(stream[..pos], max).stopped
    ensures Frames(stream, max) == Scan(stream[..pos], max).frames
  {
    ScanStopIsFinal(stream[..pos], stream[pos..], max);
    assert stream[..pos] + stream[pos..] == stream;
    FramesAreScanned(stream, max);
  }

  /** The inner loop: emits every complete frame in the buffer. The source's return on an oversized line
      inside this loop is unreachable, because a receive never fills the buffer past `max + 1` bytes. */
  method DrainFrames(before: seq<Bytes>, filled: Bytes, max: nat, ghost received: Bytes)
    returns (emitted: seq<Bytes>, buffer: Bytes)
    requires |filled| <= max + 1
    requires var p := Scan(filled, max); Scan(received, max) == p.(frames := before + p.frames)
    ensures |buffer| <= max + 1 && FirstLf(buffer) == |buffer|
    ensures var p := Scan(buffer, max); Scan(received, max) == p.(frames := emitted + p.frames)
  {
    emitted, buffer := before, filled;
    while FirstLf(buffer) < |buffer|
      invariant |buffer| <= max + 1
      invariant var p := Scan(buffer, max); Scan(received, max) == p.(frames := emitted + p.frames)
      decreases |buffer|
    {
      var index := FirstLf(buffer);
      var line := buffer[..index];
      ghost var rest := Scan(buffer[index + 1..], max);
      assert emitted + ([line] + rest.frames) == (emitted + [line]) + rest.frames;
      buffer := buffer[index + 1..];
      emitted := emitted + [line];
      if |line| > max {
        assert false;
      }
    }
  }
}
