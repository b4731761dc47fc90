/** Docker's multiplexed log stream, taken apart into the two task-output writers. */
module LogFrames {
  import opened Sequences
  import opened LineWriter

  datatype ReadEnd = Eof | Broken
  datatype CopyError = EndOfStream | UnexpectedEnd | ReadFailed

  const HEADER_BYTES: nat := 8

  // ---------- what a stream means ----------

  datatype Demuxed = Demuxed(stdout: seq<byte>, stderr: seq<byte>, error: CopyError)

  function Uint32(b: seq<byte>): (n: nat)
    requires |b| == 4
    ensures n < 0x1_0000_0000
  {
    var high: nat, low: nat := b[0] as int * 256 + b[1] as int, b[2] as int * 256 + b[3] as int;
    high * 0x10000 + low
  }

  function PayloadSize(s: seq<byte>): (n: nat)
    requires |s| >= HEADER_BYTES
  {
    Uint32(s[4..8])
  }

  function Route(stream: byte, payload: seq<byte>, wanted: byte): (s: seq<byte>)
  {
    if stream == wanted then payload else []
  }

  function EndError(got: nat, end: ReadEnd): CopyError {
    if end.Broken? then ReadFailed else if got == 0 then EndOfStream else UnexpectedEnd
  }

  datatype Progress = More | Ended(error: CopyError)

  /** What reading one frame gives. */
  datatype Read = Read(stdout: seq<byte>, stderr: seq<byte>, rest: seq<byte>, progress: Progress)

  function ReadFrame(s: seq<byte>, end: ReadEnd): (r: Read)
    ensures r.progress.More? ==> |r.rest| < |s|
  {
    if |s| < HEADER_BYTES then Read([], [], [], Ended(EndError(|s|, end)))
    else
      var body := s[HEADER_BYTES..];
      var k := Taken(body, PayloadSize(s));
      Read(Route(s[0], body[..k], 1), Route(s[0], body[..k], 2), body[k..],
           if PayloadSize(s) <= |body| then More else Ended(EndError(0, end)))
  }

  function Taken(s: seq<byte>, n: nat): (k: nat)
    ensures k <= |s|
  {
    if |s| < n then |s| else n
  }

  /** Payload bytes per stream, including those of a last frame cut short. */
  function Demux(s: seq<byte>, end: ReadEnd): (d: Demuxed)
    decreases |s|
  {
    var r := ReadFrame(s, end);
    match r.progress
    case Ended(error) => Demuxed(r.stdout, r.stderr, error)
    case More =>
      var d := Demux(r.rest, end);
      Demuxed(r.stdout + d.stdout, r.stderr + d.stderr, d.error)
  }

  // ---------- encoding ----------

  datatype Frame = Frame(stream: byte, padding: (byte, byte, byte), payload: seq<byte>)

  predicate Encodable(frames: seq<Frame>) {
    forall i :: 0 <= i < |frames| ==> |frames[i].payload| < 0x1_0000_0000
  }

  function Bytes32(n: nat): (b: seq<byte>)
    requires n < 0x1_0000_0000
    ensures |b| == 4
  {
    [n / 0x1_000_000, n / 0x10000 % 256, n / 256 % 256, n % 256]
  }

  lemma Uint32Bytes32(n: nat)
    requires n < 0x1_0000_0000
    ensures Uint32(Bytes32(n)) == n
  {
    var a, b, c := n / 256, n / 0x10000, n / 0x1_000_000;
    assert n == 256 * a + n % 256;
    assert b == a / 256 && a == 256 * b + a % 256;
    assert c == b / 256 && b == 256 * c + b % 256;
  }

  function EncodeFrame(f: Frame): (s: seq<byte>)
    requires |f.payload| < 0x1_0000_0000
    ensures |s| == HEADER_BYTES + |f.payload|
  {
    [f.stream, f.padding.0, f.padding.1, f.padding.2] + Bytes32(|f.payload|) + f.payload
  }

  function Encode(frames: seq<Frame>): (s: seq<byte>)
    requires Encodable(frames)
  {
    if frames == [] then [] else EncodeFrame(frames[0]) + Encode(frames[1..])
  }

  function Payloads(frames: seq<Frame>, wanted: byte): (s: seq<byte>) {
    if frames == [] then [] else Route(frames[0].stream, frames[0].payload, wanted) + Payloads(frames[1..], wanted)
  }

  function PayloadsOf(frames: seq<Frame>): (payloads: seq<seq<byte>>)
    ensures |payloads| == |frames|
  {
    seq(|frames|, i requires 0 <= i < |frames| => frames[i].payload)
  }

  lemma {:induction false} PayloadsSnoc(front: seq<Frame>, last: Frame, wanted: byte)
    ensures Payloads(front + [last], wanted) == Payloads(front, wanted) + if last.stream == wanted then last.payload else []
    decreases |front|
  {
    if front == [] {
      assert front + [last] == [last];
    } else {
      assert (front + [last])[1..] == front[1..] + [last];
      PayloadsSnoc(front[1..], last, wanted);
      Regroup(Route(front[0].stream, front[0].payload, wanted), Payloads(front[1..], wanted), if last.stream == wanted then last.payload else []);
    }
  }

  /** These are the places of the frames of one stream. */
  predicate PlacesOf(frames: seq<Frame>, wanted: byte, places: seq<nat>) {
    && Ascending(places) && (forall a :: 0 <= a < |places| ==> places[a] < |frames| && frames[places[a]].stream == wanted)
    && (forall i :: 0 <= i < |frames| && frames[i].stream == wanted ==> i in places)
  }

  lemma PlacesSnoc(front: seq<Frame>, last: Frame, wanted: byte, places: seq<nat>)
    requires PlacesOf(front, wanted, places)
    ensures PlacesOf(front + [last], wanted, if last.stream == wanted then places + [|front|] else places)
  {
    var frames, places' := front + [last], if last.stream == wanted then places + [|front|] else places;
    assert forall i :: 0 <= i < |front| ==> frames[i] == front[i];
    forall i | 0 <= i < |frames| && frames[i].stream == wanted ensures i in places' {
      if i < |front| {
        assert i in places;
        assert places <= places';
      } else {
        assert places'[|places|] == i;
      }
    }
  }

  lemma PayloadsPick(front: seq<Frame>, last: Frame, wanted: byte, places: seq<nat>)
    requires PlacesOf(front, wanted, places) && Payloads(front, wanted) == Concat(At(PayloadsOf(front), places))
    ensures
      var places' := if last.stream == wanted then places + [|front|] else places;
      Within(PayloadsOf(front + [last]), places') && Payloads(front + [last], wanted) == Concat(At(PayloadsOf(front + [last]), places'))
  {
    assert PayloadsOf(front + [last]) == PayloadsOf(front) + [last.payload];
    PayloadsSnoc(front, last, wanted);
    AtSnoc(PayloadsOf(front), last.payload, places);
    ConcatSnoc(At(PayloadsOf(front), places), last.payload);
  }

  /** The bytes of one stream are the payloads of exactly its frames, one after the other. */
  lemma {:induction false} PayloadsAre(frames: seq<Frame>, wanted: byte) returns (places: seq<nat>)
    ensures Ascending(places) && Within(PayloadsOf(frames), places)
    ensures forall i: nat :: i in places <==> i < |frames| && frames[i].stream == wanted
    ensures Payloads(frames, wanted) == Concat(At(PayloadsOf(frames), places))
    decreases |frames|
  {
    if frames == [] {
      places := [];
    } else {
      var front, last := frames[..|frames| - 1], frames[|frames| - 1];
      places := PayloadsAre(front, wanted);
      assert front + [last] == frames;
      PlacesSnoc(front, last, wanted, places);
      PayloadsPick(front, last, wanted, places);
      places := if last.stream == wanted then places + [|front|] else places;
    }
  }

  lemma HeaderRoundTrip(f: Frame, rest: seq<byte>)
    requires |f.payload| < 0x1_0000_0000
    ensures
      var s := EncodeFrame(f) + rest;
      && s[0] == f.stream && PayloadSize(s) == |f.payload| && s[HEADER_BYTES..] == f.payload + rest
      && |f.payload| == s[4] as int * 0x1_000_000 + s[5] as int * 0x10000 + s[6] as int * 0x100 + s[7] as int
  {
    var s := EncodeFrame(f) + rest;
    assert s[4..8] == Bytes32(|f.payload|);
    Uint32Bytes32(|f.payload|);
  }

  /** Taking an encoded frame list apart gives each stream its payloads in order, and ends
      cleanly. */
  lemma {:induction false} DemuxEncode(frames: seq<Frame>)
    requires Encodable(frames)
    ensures Demux(Encode(frames), Eof) == Demuxed(Payloads(frames, 1), Payloads(frames, 2), EndOfStream)
    decreases |frames|
  {
    if frames != [] {
      DemuxFrame(frames[0], Encode(frames[1..]), Eof);
      DemuxEncode(frames[1..]);
    }
  }

  /** A stream that ends inside a frame, or before it: the whole frames give their payloads,
      the last one what there is of its payload, and the error tells a failed read, a cut
      header and any other end apart. */
  lemma {:induction false} DemuxCut(frames: seq<Frame>, f: Frame, n: nat, end: ReadEnd)
    requires Encodable(frames) && |f.payload| < 0x1_0000_0000 && n < |EncodeFrame(f)|
    ensures
      var d, part := Demux(Encode(frames) + EncodeFrame(f)[..n], end), if n < 8 then [] else f.payload[..n - 8];
      && d.stdout == Payloads(frames, 1) + (if f.stream == 1 then part else [])
      && d.stderr == Payloads(frames, 2) + (if f.stream == 2 then part else [])
      && d.error == if end.Broken? then ReadFailed else if 0 < n < 8 then UnexpectedEnd else EndOfStream
    decreases |frames|
  {
    var cut := EncodeFrame(f)[..n];
    if frames == [] {
      assert Encode(frames) + cut == cut;
      CutFrame(f, n, end);
    } else {
      Regroup(EncodeFrame(frames[0]), Encode(frames[1..]), cut);
      DemuxFrame(frames[0], Encode(frames[1..]) + cut, end);
      DemuxCut(frames[1..], f, n, end);
      var part := if n < 8 then [] else f.payload[..n - 8];
      PayloadsAppend(frames, 1, if f.stream == 1 then part else []);
      PayloadsAppend(frames, 2, if f.stream == 2 then part else []);
    }
  }

  lemma PayloadsAppend(frames: seq<Frame>, wanted: byte, more: seq<byte>)
    requires frames != []
    ensures Payloads(frames, wanted) + more == Route(frames[0].stream, frames[0].payload, wanted) + (Payloads(frames[1..], wanted) + more)
  {
    Regroup(Route(frames[0].stream, frames[0].payload, wanted), Payloads(frames[1..], wanted), more);
  }

  /** A whole frame gives its payload to its stream, and reading goes on behind it. */
  lemma DemuxFrame(f: Frame, rest: seq<byte>, end: ReadEnd)
    requires |f.payload| < 0x1_0000_0000
    ensures
      var d, r := Demux(EncodeFrame(f) + rest, end), Demux(rest, end);
      d == Demuxed(Route(f.stream, f.payload, 1) + r.stdout, Route(f.stream, f.payload, 2) + r.stderr, r.error)
  {
    HeaderRoundTrip(f, rest);
    var body := (EncodeFrame(f) + rest)[HEADER_BYTES..];
    assert body[..|f.payload|] == f.payload && body[|f.payload|..] == rest;
  }

  /** The header and the part of the payload in a frame that is cut behind its header. */
  lemma CutParts(head: seq<byte>, size: seq<byte>, payload: seq<byte>, n: nat)
    requires |head| == 4 && |size| == 4 && 8 <= n <= 8 + |payload|
    ensures
      var s := (head + size + payload)[..n];
      s[0] == head[0] && s[4..8] == size && s[8..] == payload[..n - 8]
  {
    var s := (head + size + payload)[..n];
    assert s == head + size + payload[..n - 8];
  }

  lemma CutFrame(f: Frame, n: nat, end: ReadEnd)
    requires |f.payload| < 0x1_0000_0000 && n < |EncodeFrame(f)|
    ensures
      var d, part := Demux(EncodeFrame(f)[..n], end), if n < 8 then [] else f.payload[..n - 8];
      && d.stdout == (if f.stream == 1 then part else []) && d.stderr == (if f.stream == 2 then part else [])
      && d.error == if end.Broken? then ReadFailed else if 0 < n < 8 then UnexpectedEnd else EndOfStream
  {
    var s := EncodeFrame(f)[..n];
    if n >= 8 {
      CutParts([f.stream, f.padding.0, f.padding.1, f.padding.2], Bytes32(|f.payload|), f.payload, n);
      Uint32Bytes32(|f.payload|);
    }
  }

  /** A stream that is cut anywhere gives a prefix of what the whole stream gives. */
  lemma {:induction false} DemuxPrefix(s: seq<byte>, t: seq<byte>, end: ReadEnd, end': ReadEnd)
    ensures Demux(s, end).stdout <= Demux(s + t, end').stdout
    ensures Demux(s, end).stderr <= Demux(s + t, end').stderr
    decreases |s|
  {
    ReadFramePrefix(s, t, end, end');
    var r := ReadFrame(s, end);
    if r.progress.More? {
      DemuxPrefix(r.rest, t, end, end');
    }
  }

  lemma ReadFramePrefix(s: seq<byte>, t: seq<byte>, end: ReadEnd, end': ReadEnd)
    ensures
      var r, r' := ReadFrame(s, end), ReadFrame(s + t, end');
      if r.progress.More? then r' == r.(rest := r.rest + t)
      else r.stdout <= r'.stdout && r.stderr <= r'.stderr
  {
    if |s| >= HEADER_BYTES {
      var n, body := PayloadSize(s), s[HEADER_BYTES..];
      assert (s + t)[4..8] == s[4..8] && (s + t)[HEADER_BYTES..] == body + t;
      if n <= |body| {
        assert (body + t)[..n] == body[..n] && (body + t)[n..] == body[n..] + t;
      } else {
        assert body <= (body + t)[..Taken(body + t, n)];
      }
    }
  }

  // ---------- the copy loop ----------

  /** A stream of bytes that ends in end-of-file or in an error. */
  class Reader {
    var rest: seq<byte>
    const end: ReadEnd

    constructor (bytes: seq<byte>, end: ReadEnd)
      ensures rest == bytes && this.end == end
    {
      rest := bytes;
      this.end := end;
    }

    method ReadFull(n: nat) returns (bytes: seq<byte>, err: bool)
      modifies this
      ensures err <==> |old(rest)| < n
      ensures bytes == if err then old(rest) else old(rest)[..n]
      ensures rest == if err then [] else old(rest)[n..]
    {
      var got := if |rest| < n then |rest| else n;
      bytes, err := rest[..got], |rest| < n;
      rest := rest[got..];
    }
  }

  /** Where copied bytes go. */
  class Sink {
    var bytes: seq<byte>

    constructor ()
      ensures bytes == []
    {
      bytes := [];
    }

    method Write(p: seq<byte>)
      modifies this
      ensures bytes == old(bytes) + p
    {
      bytes := bytes + p;
    }
  }

  /** Copies in pieces of any size; a short stream is copied as far as it goes. */
  method CopyN(reader: Reader, sink: Sink, n: nat) returns (short: bool)
    modifies reader, sink
    ensures short <==> |old(reader.rest)| < n
    ensures reader.rest == old(reader.rest)[Taken(old(reader.rest), n)..]
    ensures sink.bytes == old(sink.bytes) + old(reader.rest)[..Taken(old(reader.rest), n)]
  {
    ghost var all := reader.rest;
    var done := 0;
    while done < n && |reader.rest| > 0
      invariant 0 <= done <= n && done <= |all| && reader.rest == all[done..]
      invariant sink.bytes == old(sink.bytes) + all[..done]
      decreases n - done
    {
      var k := CopyPiece(reader, sink, n - done);
      Piece(old(sink.bytes), all, done, k);
      done := done + k;
    }
    return done < n;
  }

  lemma Piece(before: seq<byte>, all: seq<byte>, done: nat, k: nat)
    requires done + k <= |all|
    ensures before + all[..done] + all[done..][..k] == before + all[..done + k]
    ensures all[done..][k..] == all[done + k..]
  {
    assert all[..done] + all[done..][..k] == all[..done + k];
  }

  method CopyPiece(reader: Reader, sink: Sink, limit: nat) returns (k: nat)
    requires limit > 0 && |reader.rest| > 0
    modifies reader, sink
    ensures 0 < k <= limit && k <= |old(reader.rest)|
    ensures reader.rest == old(reader.rest)[k..]
    ensures sink.bytes == old(sink.bytes) + old(reader.rest)[..k]
  {
    k :| 0 < k <= limit && k <= |reader.rest|;
    var bytes, _ := reader.ReadFull(k);
    sink.Write(bytes);
  }

  /** `copyDockerLogFrames`: each output receives exactly the payload bytes of its stream,
      in pieces of any size. */
  method CopyDockerLogFrames(reader: Reader, stdout: Sink, stderr: Sink) returns (err: CopyError)
    requires stdout != stderr
    modifies reader, stdout, stderr
    ensures err == Demux(old(reader.rest), reader.end).error
    ensures stdout.bytes == old(stdout.bytes) + Demux(old(reader.rest), reader.end).stdout
    ensures stderr.bytes == old(stderr.bytes) + Demux(old(reader.rest), reader.end).stderr
  {
    ghost var d := Demux(reader.rest, reader.end);
    ghost var goal := Demuxed(stdout.bytes + d.stdout, stderr.bytes + d.stderr, d.error);
    while true
      invariant Continues(goal, stdout.bytes, stderr.bytes, Demux(reader.rest, reader.end))
      decreases |reader.rest|
    {
      NextFrame(goal, stdout.bytes, stderr.bytes, reader.rest, reader.end);
      var progress := CopyFrame(reader, stdout, stderr);
      if progress.Ended? {
        return progress.error;
      }
    }
  }

  /** What was read so far and what the rest means make up the whole. */
  predicate Continues(whole: Demuxed, out: seq<byte>, errOut: seq<byte>, rest: Demuxed) {
    && whole.error == rest.error
    && whole.stdout == out + rest.stdout
    && whole.stderr == errOut + rest.stderr
  }

  lemma NextFrame(whole: Demuxed, out: seq<byte>, errOut: seq<byte>, s: seq<byte>, end: ReadEnd)
    requires Continues(whole, out, errOut, Demux(s, end))
    ensures
      var r := ReadFrame(s, end);
      match r.progress
      case Ended(error) => whole == Demuxed(out + r.stdout, errOut + r.stderr, error)
      case More => Continues(whole, out + r.stdout, errOut + r.stderr, Demux(r.rest, end))
  {
    var r := ReadFrame(s, end);
    if r.progress.More? {
      var d := Demux(r.rest, end);
      Regroup(out, r.stdout, d.stdout);
      Regroup(errOut, r.stderr, d.stderr);
    }
  }

  /** One turn of the copy loop. */
  method CopyFrame(reader: Reader, stdout: Sink, stderr: Sink) returns (progress: Progress)
    requires stdout != stderr
    modifies reader, stdout, stderr
    ensures
      var r := ReadFrame(old(reader.rest), reader.end);
      && progress == r.progress && (progress.More? ==> reader.rest == r.rest)
      && stdout.bytes == old(stdout.bytes) + r.stdout
      && stderr.bytes == old(stderr.bytes) + r.stderr
  {
    ghost var s := reader.rest;
    var header, shortHeader := reader.ReadFull(HEADER_BYTES);
    if shortHeader {
      return Ended(if reader.end.Broken? then ReadFailed else if header == [] then EndOfStream else UnexpectedEnd);
    }
    assert header[4..8] == s[4..8] && header[0] == s[0];
    var short := CopyPayload(reader, stdout, stderr, header[0], Uint32(header[4..8]));
    if short {
      return Ended(if reader.end.Broken? then ReadFailed else EndOfStream);
    }
    return More;
  }

  method CopyPayload(reader: Reader, stdout: Sink, stderr: Sink, stream: byte, n: nat) returns (short: bool)
    requires stdout != stderr
    modifies reader, stdout, stderr
    ensures short <==> |old(reader.rest)| < n
    ensures reader.rest == old(reader.rest)[Taken(old(reader.rest), n)..]
    ensures stdout.bytes == old(stdout.bytes) + Route(stream, old(reader.rest)[..Taken(old(reader.rest), n)], 1)
    ensures stderr.bytes == old(stderr.bytes) + Route(stream, old(reader.rest)[..Taken(old(reader.rest), n)], 2)
  {
    match stream {
      case 1 => short := CopyN(reader, stdout, n);
      case 2 => short := CopyN(reader, stderr, n);
      case _ =>
        var _, cut := reader.ReadFull(n);
        short := cut;
    }
  }

  /** Framing does not change the lines: following a stream of frames hands on, for each
      of the two outputs, exactly the lines of its concatenated payloads. */
  method FollowFrames(frames: seq<Frame>) returns (err: CopyError, stdoutLines: seq<seq<byte>>, stderrLines: seq<seq<byte>>, ghost out: seq<nat>, ghost errOut: seq<nat>)
    requires Encodable(frames)
    ensures err == EndOfStream
    ensures Ascending(out) && Within(Lines(Payloads(frames, 1)), out) && stdoutLines == At(Lines(Payloads(frames, 1)), out)
    ensures forall i: nat :: i in out <==> i < |Lines(Payloads(frames, 1))| && 1 <= |Lines(Payloads(frames, 1))[i]| <= 65536
    ensures Ascending(errOut) && Within(Lines(Payloads(frames, 2)), errOut) && stderrLines == At(Lines(Payloads(frames, 2)), errOut)
    ensures forall i: nat :: i in errOut <==> i < |Lines(Payloads(frames, 2))| && 1 <= |Lines(Payloads(frames, 2))[i]| <= 65536
  {
    var reader := new Reader(Encode(frames), Eof);
    var stdout := new Sink();
    var stderr := new Sink();
    err := CopyDockerLogFrames(reader, stdout, stderr);
    DemuxEncode(frames);
    assert stdout.bytes == Payloads(frames, 1) && stderr.bytes == Payloads(frames, 2);
    stdoutLines, out := LinesOf(stdout.bytes);
    stderrLines, errOut := LinesOf(stderr.bytes);
  }

  /** The lines a writer hands on when the bytes reach it in whatever pieces. */
  method LinesOf(bytes: seq<byte>) returns (lines: seq<seq<byte>>, ghost places: seq<nat>)
    ensures Ascending(places) && Within(Lines(bytes), places) && lines == At(Lines(bytes), places)
    ensures forall i: nat :: i in places <==> i < |Lines(bytes)| && 1 <= |Lines(bytes)[i]| <= 65536
  {
    var writer := new Writer(true, false);
    assert Concat([bytes]) == bytes;
    var pieces: seq<seq<byte>> :| Concat(pieces) == bytes;
    places := writer.WriteAll(pieces);
    lines := writer.emitted;
  }
}
