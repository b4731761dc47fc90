/** The task-output writer: it buffers one stream across arbitrary write boundaries and
    hands on complete lines. */
module LineWriter {
  import opened Sequences

  type byte = x: int | 0 <= x < 256

  const NEWLINE: byte := 10
  const MAX_LINE_BYTES: nat := 64 * 1024

  // ---------- lines of a stream ----------

  /** Position of the first newline, or the length when there is none. */
  function FirstNewline(s: seq<byte>): (i: nat)
    ensures i <= |s|
    ensures forall k :: 0 <= k < i ==> s[k] != NEWLINE
    ensures i < |s| ==> s[i] == NEWLINE
  {
    if s == [] || s[0] == NEWLINE then 0 else 1 + FirstNewline(s[1..])
  }

  lemma FirstNewlineIs(s: seq<byte>, i: nat)
    requires i <= |s| && (forall k :: 0 <= k < i ==> s[k] != NEWLINE)
    requires i < |s| ==> s[i] == NEWLINE
    ensures FirstNewline(s) == i
  {
  }

  /** The finished lines of a stream. */
  function Complete(s: seq<byte>): (lines: seq<seq<byte>>)
    decreases |s|
  {
    var i := FirstNewline(s);
    if i == |s| then [] else [s[..i]] + Complete(s[i + 1..])
  }

  /** What follows the last newline. */
  function Pending(s: seq<byte>): (line: seq<byte>)
    decreases |s|
  {
    var i := FirstNewline(s);
    if i == |s| then s else Pending(s[i + 1..])
  }

  /** All lines of a stream; the last one is what follows the last newline. */
  function Lines(s: seq<byte>): (lines: seq<seq<byte>>)
    ensures |lines| > 0
  {
    Complete(s) + [Pending(s)]
  }

  function Terminated(lines: seq<seq<byte>>): (s: seq<byte>) {
    if lines == [] then [] else AfterLine(lines[0], Terminated(lines[1..]))
  }

  function AfterLine(line: seq<byte>, rest: seq<byte>): (s: seq<byte>) {
    line + [NEWLINE] + rest
  }

  function Joined(lines: seq<seq<byte>>): (s: seq<byte>)
    requires |lines| > 0
  {
    Terminated(lines[..|lines| - 1]) + lines[|lines| - 1]
  }

  predicate NoNewline(line: seq<byte>) {
    NEWLINE !in line
  }

  predicate NoNewlines(lines: seq<seq<byte>>) {
    forall k :: 0 <= k < |lines| ==> NoNewline(lines[k])
  }

  lemma AfterLineConcat(line: seq<byte>, rest: seq<byte>, t: seq<byte>)
    ensures AfterLine(line, rest) + t == AfterLine(line, rest + t)
  {
  }

  lemma CutAt(s: seq<byte>, i: nat)
    requires i < |s| && s[i] == NEWLINE
    ensures s == AfterLine(s[..i], s[i + 1..])
  {
  }

  lemma PrependLine(first: seq<byte>, rest: seq<byte>)
    requires NoNewline(first)
    ensures Complete(AfterLine(first, rest)) == [first] + Complete(rest)
    ensures Pending(AfterLine(first, rest)) == Pending(rest)
  {
    var s := AfterLine(first, rest);
    assert forall k :: 0 <= k < |first| ==> s[k] == first[k];
    FirstNewlineIs(s, |first|);
    assert s[..|first|] == first && s[|first| + 1..] == rest;
  }

  lemma UnfinishedOnly(line: seq<byte>)
    requires NoNewline(line)
    ensures Complete(line) == [] && Pending(line) == line
  {
    FirstNewlineIs(line, |line|);
  }

  lemma PrependGood(first: seq<byte>, rest: seq<seq<byte>>)
    requires NoNewline(first) && NoNewlines(rest)
    ensures NoNewlines([first] + rest) && ([first] + rest)[1..] == rest
  {
  }

  lemma {:induction false} CutRoundTrip(s: seq<byte>)
    ensures Terminated(Complete(s)) + Pending(s) == s
    ensures NoNewlines(Complete(s)) && NoNewline(Pending(s))
    decreases |s|
  {
    var i := FirstNewline(s);
    if i == |s| {
      assert [] + s == s;
    } else {
      var first, rest := s[..i], s[i + 1..];
      CutRoundTrip(rest);
      PrependGood(first, Complete(rest));
      CutAt(s, i);
      AfterLineConcat(first, Terminated(Complete(rest)), Pending(rest));
    }
  }

  /** `Lines` is the one way to cut a stream at its newlines. */
  lemma LinesRoundTrip(s: seq<byte>)
    ensures Joined(Lines(s)) == s
    ensures NoNewlines(Lines(s))
  {
    CutRoundTrip(s);
    DropLast(Complete(s), Pending(s));
  }

  lemma DropLast(front: seq<seq<byte>>, last: seq<byte>)
    ensures (front + [last])[..|front + [last]| - 1] == front && (front + [last])[|front + [last]| - 1] == last
  {
  }

  lemma {:induction false} CutTerminated(lines: seq<seq<byte>>, last: seq<byte>)
    requires NoNewlines(lines) && NoNewline(last)
    ensures Complete(Terminated(lines) + last) == lines && Pending(Terminated(lines) + last) == last
    decreases |lines|
  {
    if lines == [] {
      assert [] + last == last;
      UnfinishedOnly(last);
    } else {
      assert NoNewline(lines[0]);
      CutTerminated(lines[1..], last);
      AfterLineConcat(lines[0], Terminated(lines[1..]), last);
      PrependLine(lines[0], Terminated(lines[1..]) + last);
      assert [lines[0]] + lines[1..] == lines;
    }
  }

  lemma JoinedRoundTrip(lines: seq<seq<byte>>)
    requires |lines| > 0 && NoNewlines(lines)
    ensures Lines(Joined(lines)) == lines
  {
    var front, last := lines[..|lines| - 1], lines[|lines| - 1];
    assert NoNewline(last);
    CutTerminated(front, last);
    assert front + [last] == lines;
  }

  /** Reading on from any point needs only the unfinished line. */
  lemma {:induction false} LinesConcat(s: seq<byte>, t: seq<byte>)
    ensures Complete(s + t) == Complete(s) + Complete(Pending(s) + t)
    ensures Pending(s + t) == Pending(Pending(s) + t)
    decreases |s|
  {
    var i := FirstNewline(s);
    if i == |s| {
      assert [] + Complete(s + t) == Complete(s + t);
    } else {
      var first, rest := s[..i], s[i + 1..];
      LinesConcat(rest, t);
      CutAt(s, i);
      AfterLineConcat(first, rest, t);
      PrependLine(first, rest + t);
      Regroup([first], Complete(rest), Complete(Pending(rest) + t));
    }
  }

  /** Part of a line only makes the unfinished line longer. */
  lemma ExtendPending(s: seq<byte>, part: seq<byte>)
    requires NoNewline(part)
    ensures Complete(s + part) == Complete(s) && Pending(s + part) == Pending(s) + part
  {
    LinesConcat(s, part);
    CutRoundTrip(s);
    UnfinishedOnly(Pending(s) + part);
    assert Complete(s) + [] == Complete(s);
  }

  /** A newline finishes the line. */
  lemma FinishLine(s: seq<byte>)
    ensures Complete(s + [NEWLINE]) == Complete(s) + [Pending(s)]
    ensures Pending(s + [NEWLINE]) == []
  {
    LinesConcat(s, [NEWLINE]);
    CutRoundTrip(s);
    PrependLine(Pending(s), []);
    UnfinishedOnly([]);
    assert AfterLine(Pending(s), []) == Pending(s) + [NEWLINE];
    assert [Pending(s)] + [] == [Pending(s)];
  }

  predicate Kept(line: seq<byte>) {
    0 < |line| <= MAX_LINE_BYTES
  }

  /** The lines that are handed on, in order. */
  function KeptLines(lines: seq<seq<byte>>): (kept: seq<seq<byte>>)
    ensures forall k :: 0 <= k < |kept| ==> Kept(kept[k]) && kept[k] in lines
  {
    if lines == [] then []
    else if Kept(lines[0]) then [lines[0]] + KeptLines(lines[1..])
    else KeptLines(lines[1..])
  }

  lemma {:induction false} KeptLinesConcat(a: seq<seq<byte>>, b: seq<seq<byte>>)
    ensures KeptLines(a + b) == KeptLines(a) + KeptLines(b)
  {
    if a == [] {
      assert a + b == b;
    } else {
      assert (a + b)[1..] == a[1..] + b;
      KeptLinesConcat(a[1..], b);
    }
  }

  /** Exactly the lines of 1 to 65536 bytes are handed on, in their order: they are the lines
      at an ascending list of places, and those are the places of such lines. */
  lemma {:induction false} KeptLinesAre(lines: seq<seq<byte>>) returns (places: seq<nat>)
    ensures Ascending(places) && Within(lines, places) && KeptLines(lines) == At(lines, places)
    ensures forall i: nat :: i in places <==> i < |lines| && 1 <= |lines[i]| <= 65536
    decreases |lines|
  {
    if lines == [] {
      places := [];
    } else {
      var front, last := lines[..|lines| - 1], lines[|lines| - 1];
      places := KeptLinesAre(front);
      assert front + [last] == lines;
      KeptLinesConcat(front, [last]);
      AtSnoc(front, last, places);
      if Kept(last) {
        assert KeptLines([last]) == [last];
        places := places + [|front|];
      } else {
        assert KeptLines([last]) == [] && At(front, places) + [] == At(front, places);
      }
    }
  }

  /** What is handed on of these lines, in the writer's own terms. */
  ghost predicate HandedOn(lines: seq<seq<byte>>, emitted: seq<seq<byte>>) {
    exists places: seq<nat> ::
      && Ascending(places) && Within(lines, places) && emitted == At(lines, places)
      && forall i: nat :: i in places <==> i < |lines| && 1 <= |lines[i]| <= 65536
  }

  lemma KeptIsHandedOn(lines: seq<seq<byte>>)
    ensures HandedOn(lines, KeptLines(lines))
  {
    var places := KeptLinesAre(lines);
  }

  lemma KeptOneMore(base: seq<seq<byte>>, lines: seq<seq<byte>>, line: seq<byte>)
    ensures (base + KeptLines(lines)) + KeptLines([line]) == base + KeptLines(lines + [line])
    ensures base <= base + KeptLines(lines + [line])
  {
    KeptLinesConcat(lines, [line]);
    Regroup(base, KeptLines(lines), KeptLines([line]));
  }

  // ---------- chunks ----------

  function Concat(chunks: seq<seq<byte>>): (s: seq<byte>) {
    if chunks == [] then [] else chunks[0] + Concat(chunks[1..])
  }

  lemma ConcatSnoc(chunks: seq<seq<byte>>, last: seq<byte>)
    ensures Concat(chunks + [last]) == Concat(chunks) + last
  {
    if chunks != [] {
      assert (chunks + [last])[1..] == chunks[1..] + [last];
      ConcatSnoc(chunks[1..], last);
    } else {
      assert chunks + [last] == [last];
    }
  }

  // ---------- the writer ----------

  method IndexByte(p: seq<byte>) returns (end: int)
    ensures end == -1 ==> NoNewline(p)
    ensures end != -1 ==> 0 <= end < |p| && p[end] == NEWLINE && NoNewline(p[..end])
  {
    var i := 0;
    while i < |p|
      invariant 0 <= i <= |p|
      invariant forall k :: 0 <= k < i ==> p[k] != NEWLINE
    {
      if p[i] == NEWLINE {
        return i;
      }
      i := i + 1;
    }
    return -1;
  }

  /** `emitted` is what was handed to the reporter; `stream` is everything accepted since
      the last flush. */
  class Writer {
    var line: seq<byte>
    var discard: bool
    var closed: bool
    const hasReporter: bool
    var emitted: seq<seq<byte>>
    ghost var base: seq<seq<byte>>
    ghost var stream: seq<byte>

    constructor (hasReporter: bool, closed: bool)
      ensures Valid() && this.hasReporter == hasReporter && this.closed == closed
      ensures emitted == [] && base == [] && stream == []
    {
      this.hasReporter := hasReporter;
      this.closed := closed;
      line, discard, emitted, base, stream := [], false, [], [], [];
    }

    /** The buffer holds the unfinished line unless that is already too long, and all
        finished lines within the limit have been handed on. */
    ghost predicate Valid()
      reads this
    {
      && Buffers(Pending(stream))
      && emitted == base + KeptLines(Complete(stream))
      && base <= emitted
    }

    ghost predicate Buffers(pending: seq<byte>)
      reads this
    {
      && discard == (|pending| > MAX_LINE_BYTES)
      && line == if discard then [] else pending
    }

    predicate Open()
      reads this
    {
      hasReporter && !closed
    }

    method FlushLine(ghost pending: seq<byte>)
      requires Buffers(pending)
      modifies this`line, this`discard, this`emitted
      ensures Buffers([])
      ensures emitted == old(emitted) + KeptLines([pending])
    {
      if !discard && |line| > 0 {
        emitted := emitted + [line];
      }
      line := [];
      discard := false;
    }

    /** Accepts every byte; the stream grows by exactly `p`. */
    method Write(p: seq<byte>) returns (n: nat)
      requires Valid()
      modifies this`line, this`discard, this`emitted, this`stream
      ensures Valid() && n == |p|
      ensures stream == if Open() then old(stream) + p else old(stream)
      ensures base <= emitted && HandedOn(Complete(stream), emitted[|base|..])
      ensures !Open() ==> unchanged(this)
    {
      n := |p|;
      if !hasReporter || closed {
        EmittedSinceFlush();
        return;
      }
      var rest := p;
      while |rest| > 0
        invariant Valid() && |rest| <= |p|
        invariant stream + rest == old(stream) + p
        decreases |rest|
      {
        var end := IndexByte(rest);
        if end < 0 {
          Append(rest);
          rest := [];
          break;
        }
        ghost var before := stream;
        Append(rest[..end]);
        EndLine();
        TakeLine(before, rest, end);
        rest := rest[end + 1..];
      }
      EmittedSinceFlush();
    }

    lemma EmittedSinceFlush()
      requires Valid()
      ensures base <= emitted && HandedOn(Complete(stream), emitted[|base|..])
    {
      KeptIsHandedOn(Complete(stream));
      assert emitted[|base|..] == KeptLines(Complete(stream));
    }

    /** Takes in part of a line. */
    method Append(part: seq<byte>)
      requires Valid() && NoNewline(part)
      modifies this`line, this`discard, this`stream
      ensures Valid() && stream == old(stream) + part
    {
      if |line| + |part| > MAX_LINE_BYTES {
        discard := true;
        line := [];
      }
      if !discard {
        line := line + part;
      }
      ExtendPending(stream, part);
      stream := stream + part;
    }

    method EndLine()
      requires Valid()
      modifies this`line, this`discard, this`emitted, this`stream
      ensures Valid() && stream == old(stream) + [NEWLINE]
    {
      ghost var pending := Pending(stream);
      FlushLine(pending);
      FinishLine(stream);
      KeptOneMore(base, Complete(stream), pending);
      stream := stream + [NEWLINE];
    }

    /** Ends the stream: the unfinished line is handed on too. */
    method Flush()
      requires Valid()
      modifies this`line, this`discard, this`emitted, this`stream, this`base
      ensures Valid() && stream == [] && base == emitted
      ensures emitted == old(base) + KeptLines(Lines(old(stream))) && HandedOn(Lines(old(stream)), emitted[|old(base)|..])
    {
      KeptIsHandedOn(Lines(stream));
      ghost var pending := Pending(stream);
      FlushLine(pending);
      KeptOneMore(base, Complete(stream), pending);
      UnfinishedOnly([]);
      stream := [];
      base := emitted;
    }

    method Close()
      requires Valid()
      modifies this
      ensures Valid() && stream == [] && closed && base == emitted
      ensures emitted == old(base) + KeptLines(Lines(old(stream))) && HandedOn(Lines(old(stream)), emitted[|old(base)|..])
    {
      Flush();
      closed := true;
    }

    /** Chunking independence: however a stream is cut into writes, what is handed on is
        exactly its non-empty lines within the limit, in order. */
    method WriteAll(chunks: seq<seq<byte>>) returns (ghost places: seq<nat>)
      requires Valid() && Open() && stream == [] && base == emitted
      modifies this
      ensures Valid() && Open()
      ensures Ascending(places) && Within(Lines(Concat(chunks)), places)
      ensures forall i: nat :: i in places <==> i < |Lines(Concat(chunks))| && 1 <= |Lines(Concat(chunks))[i]| <= 65536
      ensures emitted == old(emitted) + At(Lines(Concat(chunks)), places)
    {
      ghost var all := Concat(chunks);
      ghost var lines := Lines(all);
      NothingBefore(all);
      Feed(chunks);
      FlushAll(all);
      places := KeptLinesAre(lines);
    }

    method FlushAll(ghost all: seq<byte>)
      requires Valid() && stream == all
      modifies this`line, this`discard, this`emitted, this`stream, this`base
      ensures Valid() && stream == [] && base == emitted && emitted == old(base) + KeptLines(Lines(all))
    {
      Flush();
    }

    /** Writes one chunk after the other. */
    method Feed(chunks: seq<seq<byte>>)
      requires Valid() && Open()
      modifies this`line, this`discard, this`emitted, this`stream
      ensures Valid() && stream == old(stream) + Concat(chunks)
    {
      for i := 0 to |chunks|
        invariant Valid() && stream == old(stream) + Concat(chunks[..i])
      {
        ConcatNext(old(stream), chunks, i);
        var _ := Write(chunks[i]);
      }
      assert chunks[..|chunks|] == chunks;
    }
  }

  lemma ConcatNext(before: seq<byte>, chunks: seq<seq<byte>>, i: nat)
    requires i < |chunks|
    ensures before + Concat(chunks[..i + 1]) == (before + Concat(chunks[..i])) + chunks[i]
  {
    ConcatSnoc(chunks[..i], chunks[i]);
    assert chunks[..i] + [chunks[i]] == chunks[..i + 1];
  }

  lemma TakeLine(s: seq<byte>, rest: seq<byte>, end: nat)
    requires end < |rest| && rest[end] == NEWLINE
    ensures s + rest[..end] + [NEWLINE] + rest[end + 1..] == s + rest
  {
    assert rest == rest[..end] + [NEWLINE] + rest[end + 1..];
  }
}
