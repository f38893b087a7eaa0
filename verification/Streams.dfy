/** Three writers that see a byte stream chunk by chunk and keep a bounded part of it.
    What each of them knows depends on the whole stream only, not on where the chunks
    were cut. */
module Streams {
  import opened Sequences

  type byte = x: int | 0 <= x < 256

  function Concat(chunks: seq<seq<byte>>): seq<byte> {
    if chunks == [] then [] else Concat(chunks[..|chunks| - 1]) + chunks[|chunks| - 1]
  }

  /** The last `n` bytes, or all of them. */
  function Last(s: seq<byte>, n: nat): (r: seq<byte>)
    ensures |r| == if |s| < n then |s| else n
  {
    if |s| < n then s else s[|s| - n..]
  }

  lemma LastOfLonger(s: seq<byte>, t: seq<byte>, n: nat)
    ensures Last(Last(s, n) + t, n) == Last(s + t, n)
  {
  }

  lemma ConcatExtend(chunks: seq<seq<byte>>, i: nat)
    requires i < |chunks|
    ensures Concat(chunks[..i + 1]) == Concat(chunks[..i]) + chunks[i]
  {
    assert chunks[..i + 1][..i] == chunks[..i];
  }

  // ---------------------------------------------------------------- readiness probe

  lemma ContainsExtends(s: seq<byte>, t: seq<byte>, part: seq<byte>)
    requires Contains(s, part)
    ensures Contains(s + t, part)
  {
    var i :| 0 <= i <= |s| && OccursAt(s, part, i);
    assert (s + t)[i..i + |part|] == s[i..i + |part|];
    assert OccursAt(s + t, part, i);
  }

  lemma ContainsMonotone(s: seq<byte>, t: seq<byte>, part: seq<byte>)
    ensures Contains(s, part) ==> Contains(s + t, part)
  {
    if Contains(s, part) {
      ContainsExtends(s, t, part);
    }
  }

  lemma SuffixContains(s: seq<byte>, n: nat, part: seq<byte>)
    requires n <= |s| && Contains(s[n..], part)
    ensures Contains(s, part)
  {
    var i :| 0 <= i <= |s| - n && OccursAt(s[n..], part, i);
    assert s[n + i..n + i + |part|] == s[n..][i..i + |part|];
    assert OccursAt(s, part, n + i);
  }

  /** A first occurrence that ends in `t` begins within the last bytes of `s` that could
      begin one. */
  lemma BoundarySearch(s: seq<byte>, t: seq<byte>, part: seq<byte>)
    requires part != [] && !Contains(s, part)
    ensures Contains(s + t, part) <==> Contains(Last(s, |part| - 1) + t, part)
  {
    var tail := Last(s, |part| - 1);
    var n := |s| - |tail|;
    assert (s + t)[n..] == tail + t;
    if Contains(tail + t, part) {
      SuffixContains(s + t, n, part);
    }
    if Contains(s + t, part) {
      var i :| 0 <= i <= |s + t| && OccursAt(s + t, part, i);
      if i < n {
        assert s[i..i + |part|] == (s + t)[i..i + |part|];
        assert OccursAt(s, part, i);
        assert false;
      }
      assert (tail + t)[i - n..i - n + |part|] == (s + t)[i..i + |part|];
      assert OccursAt(tail + t, part, i - n);
    }
  }

  /** The search over all windows of a buffer. */
  method AnyWindow(buffer: seq<byte>, probe: seq<byte>) returns (found: bool)
    requires probe != []
    ensures found <==> Contains(buffer, probe)
  {
    found := false;
    var i := 0;
    while i + |probe| <= |buffer|
      invariant forall j :: 0 <= j < i ==> !OccursAt(buffer, probe, j)
    {
      if buffer[i..i + |probe|] == probe {
        assert OccursAt(buffer, probe, i);
        return true;
      }
      i := i + 1;
    }
  }

  class ProbeMatcher {
    const probe: seq<byte>
    var tail: seq<byte>
    var complete: bool
    /** Everything pushed so far. */
    ghost var stream: seq<byte>

    constructor (probe: seq<byte>)
      ensures Valid() && this.probe == probe && stream == []
    {
      this.probe := probe;
      tail, complete, stream := [], probe == [], [];
    }

    ghost predicate Valid()
      reads this
    {
      && (complete <==> probe == [] || Contains(stream, probe))
      && (!complete ==> tail == Last(stream, |probe| - 1))
    }

    /** Fires on the chunk that completes the first occurrence. */
    method Push(bytes: seq<byte>) returns (fired: bool)
      requires Valid()
      modifies this
      ensures Valid() && stream == old(stream) + bytes
      ensures fired <==> probe != [] && !Contains(old(stream), probe) && Contains(stream, probe)
    {
      ghost var was := stream;
      stream := stream + bytes;
      if complete {
        ContainsMonotone(was, bytes, probe);
        return false;
      }
      BoundarySearch(was, bytes, probe);
      var combined := tail + bytes;
      fired := AnyWindow(combined, probe);
      if fired {
        complete, tail := true, [];
        return;
      }
      LastOfLonger(was, bytes, |probe| - 1);
      tail := Last(combined, |probe| - 1);
    }
  }

  /** The first `i` chunks together contain the probe. */
  predicate Seen(chunks: seq<seq<byte>>, probe: seq<byte>, i: nat)
    requires i <= |chunks|
  {
    Contains(Concat(chunks[..i]), probe)
  }

  /** Chunk `i` completes the first occurrence. */
  predicate CompletesAt(chunks: seq<seq<byte>>, probe: seq<byte>, i: int) {
    0 <= i < |chunks| && !Seen(chunks, probe, i) && Seen(chunks, probe, i + 1)
  }

  /** A whole stream through a matcher: whatever the chunks, the matcher fires on the
      first one after which the stream contains the probe, and on no other. */
  method MatchAll(probe: seq<byte>, chunks: seq<seq<byte>>) returns (fired: seq<bool>)
    requires probe != []
    ensures |fired| == |chunks|
    ensures forall i :: 0 <= i < |chunks| ==> (fired[i] <==> CompletesAt(chunks, probe, i))
  {
    var matcher := new ProbeMatcher(probe);
    fired := [];
    for i := 0 to |chunks|
      invariant matcher.Valid() && matcher.probe == probe && matcher.stream == Concat(chunks[..i]) && |fired| == i
      invariant fresh(matcher)
      invariant forall j :: 0 <= j < i ==> (fired[j] <==> CompletesAt(chunks, probe, j))
    {
      ConcatExtend(chunks, i);
      var f := matcher.Push(chunks[i]);
      assert f <==> CompletesAt(chunks, probe, i);
      fired := fired + [f];
    }
  }

  lemma {:induction false} SeenStays(chunks: seq<seq<byte>>, probe: seq<byte>, i: nat, j: nat)
    requires i <= j <= |chunks| && Seen(chunks, probe, i)
    ensures Seen(chunks, probe, j)
  {
    if i < j {
      SeenStays(chunks, probe, i, j - 1);
      ConcatExtend(chunks, j - 1);
      ContainsExtends(Concat(chunks[..j - 1]), chunks[j - 1], probe);
    }
  }

  /** One chunk completes the probe at most, and one does exactly when the whole stream
      contains it. */
  lemma CompletesOnce(chunks: seq<seq<byte>>, probe: seq<byte>)
    requires probe != []
    ensures forall i, j :: CompletesAt(chunks, probe, i) && CompletesAt(chunks, probe, j) ==> i == j
    ensures Contains(Concat(chunks), probe) <==> exists i :: CompletesAt(chunks, probe, i)
  {
    forall i, j | CompletesAt(chunks, probe, i) && CompletesAt(chunks, probe, j)
      ensures i == j
    {
      if i < j {
        SeenStays(chunks, probe, i + 1, j);
      } else if j < i {
        SeenStays(chunks, probe, j + 1, i);
      }
    }
    assert chunks[..|chunks|] == chunks;
    if i :| CompletesAt(chunks, probe, i) {
      SeenStays(chunks, probe, i + 1, |chunks|);
    }
    if Seen(chunks, probe, |chunks|) {
      var i := FirstSeen(chunks, probe, |chunks|);
    }
  }

  lemma {:induction false} FirstSeen(chunks: seq<seq<byte>>, probe: seq<byte>, n: nat) returns (i: nat)
    requires probe != [] && n <= |chunks| && Seen(chunks, probe, n)
    ensures CompletesAt(chunks, probe, i)
  {
    NothingSeen(chunks, probe);
    if Seen(chunks, probe, n - 1) {
      i := FirstSeen(chunks, probe, n - 1);
    } else {
      i := n - 1;
    }
  }

  lemma NothingSeen(chunks: seq<seq<byte>>, probe: seq<byte>)
    requires probe != []
    ensures !Seen(chunks, probe, 0)
  {
  }

  // ---------------------------------------------------------------- tail of the output

  const MAX_FAILURE_OUTPUT_BYTES := 1024

  lemma LastOfChunk(s: seq<byte>, chunk: seq<byte>, n: nat)
    requires |chunk| >= n
    ensures Last(s + chunk, n) == chunk[|chunk| - n..]
  {
  }

  lemma LastOverflows(s: seq<byte>, chunk: seq<byte>, n: nat)
    requires |chunk| < n < |Last(s, n)| + |chunk|
    ensures Last(s + chunk, n) == Last(s, n)[|Last(s, n)| + |chunk| - n..] + chunk
    ensures |s + chunk| > n
  {
  }

  lemma LastFits(s: seq<byte>, chunk: seq<byte>, n: nat)
    requires |Last(s, n)| + |chunk| <= n
    ensures Last(s + chunk, n) == Last(s, n) + chunk
    ensures |s + chunk| > n <==> |s| > n
  {
  }

  class TailBuffer {
    var bytes: seq<byte>
    var truncated: bool
    ghost var stream: seq<byte>
    /** A chunk as long as the buffer was pushed. */
    ghost var sawFullChunk: bool

    constructor ()
      ensures Valid() && stream == [] && !sawFullChunk
    {
      bytes, truncated, stream, sawFullChunk := [], false, [], false;
    }

    ghost predicate Valid()
      reads this
    {
      && bytes == Last(stream, MAX_FAILURE_OUTPUT_BYTES)
      && (truncated <==> |stream| > MAX_FAILURE_OUTPUT_BYTES || sawFullChunk)
    }

    method Push(chunk: seq<byte>)
      requires Valid()
      modifies this
      ensures Valid() && stream == old(stream) + chunk
      ensures sawFullChunk <==> old(sawFullChunk) || |chunk| >= MAX_FAILURE_OUTPUT_BYTES
    {
      ghost var was := stream;
      stream := stream + chunk;
      if |chunk| >= MAX_FAILURE_OUTPUT_BYTES {
        LastOfChunk(was, chunk, MAX_FAILURE_OUTPUT_BYTES);
        bytes := chunk[|chunk| - MAX_FAILURE_OUTPUT_BYTES..];
        truncated, sawFullChunk := true, true;
        return;
      }
      var overflow := |bytes| + |chunk| - MAX_FAILURE_OUTPUT_BYTES;
      if overflow > 0 {
        LastOverflows(was, chunk, MAX_FAILURE_OUTPUT_BYTES);
        bytes := bytes[overflow..];
        truncated := true;
      } else {
        LastFits(was, chunk, MAX_FAILURE_OUTPUT_BYTES);
      }
      bytes := bytes + chunk;
    }
  }

  /** The retained bytes depend on the stream alone. The mark is set if and only if bytes
      were lost or one chunk filled the buffer by itself. */
  method RetainTail(chunks: seq<seq<byte>>) returns (bytes: seq<byte>, truncated: bool)
    ensures bytes == Last(Concat(chunks), MAX_FAILURE_OUTPUT_BYTES)
    ensures truncated <==>
              |Concat(chunks)| > MAX_FAILURE_OUTPUT_BYTES || exists i ::
                0 <= i < |chunks| && |chunks[i]| >= MAX_FAILURE_OUTPUT_BYTES
  {
    var buffer := new TailBuffer();
    for i := 0 to |chunks|
      invariant buffer.Valid() && buffer.stream == Concat(chunks[..i]) && fresh(buffer)
      invariant buffer.sawFullChunk <==> exists j :: 0 <= j < i && |chunks[j]| >= MAX_FAILURE_OUTPUT_BYTES
    {
      ConcatExtend(chunks, i);
      buffer.Push(chunks[i]);
    }
    assert chunks[..|chunks|] == chunks;
    bytes, truncated := buffer.bytes, buffer.truncated;
  }

  /** A mark without a loss: one chunk of exactly the buffer's size. */
  method MarkedButComplete() returns (chunks: seq<seq<byte>>, truncated: bool)
    ensures |Concat(chunks)| <= MAX_FAILURE_OUTPUT_BYTES && truncated
  {
    var full: seq<byte> := seq(MAX_FAILURE_OUTPUT_BYTES, _ => 0);
    chunks := [full];
    assert Concat([full]) == Concat([]) + full by { assert [full][..0] == []; }
    assert |chunks[0]| >= MAX_FAILURE_OUTPUT_BYTES;
    var bytes;
    bytes, truncated := RetainTail(chunks);
  }

  // ---------------------------------------------------------------- first line

  const MAX_OUTPUT_LINE_BYTES := 200
  const NEWLINE: byte := 10

  function FirstLine(s: seq<byte>): (r: seq<byte>)
    ensures |r| <= |s| && r == s[..|r|] && NEWLINE !in r
    ensures |r| < |s| ==> s[|r|] == NEWLINE
  {
    if s == [] || s[0] == NEWLINE then [] else [s[0]] + FirstLine(s[1..])
  }

  /** A line that has not ended yet goes on in the next chunk. */
  lemma {:induction false} FirstLineExtends(s: seq<byte>, t: seq<byte>)
    ensures NEWLINE in s ==> FirstLine(s + t) == FirstLine(s)
    ensures NEWLINE !in s ==> FirstLine(s) == s && FirstLine(s + t) == s + FirstLine(t)
  {
    if s == [] {
      assert s + t == t;
    } else {
      assert (s + t)[1..] == s[1..] + t;
      FirstLineExtends(s[1..], t);
      assert s == [s[0]] + s[1..];
    }
  }

  function Cut(s: seq<byte>, n: nat): seq<byte> {
    if |s| <= n then s else s[..n]
  }

  class FirstLineWriter {
    var line: seq<byte>
    var complete: bool
    var truncated: bool
    ghost var stream: seq<byte>

    constructor ()
      ensures Valid() && stream == []
    {
      line, complete, truncated, stream := [], false, false, [];
    }

    ghost predicate Valid()
      reads this
    {
      && line == Cut(FirstLine(stream), MAX_OUTPUT_LINE_BYTES)
      && (truncated <==> |FirstLine(stream)| > MAX_OUTPUT_LINE_BYTES)
      && (complete <==> NEWLINE in stream || truncated)
    }

    method Write(chunk: seq<byte>)
      requires Valid()
      modifies this
      ensures Valid() && stream == old(stream) + chunk
    {
      FirstLineExtends(stream, chunk);
      stream := stream + chunk;
      if complete {
        return;
      }
      var p := FirstLine(chunk);
      if |p| < |chunk| {
        complete := true;
      }
      var remaining := MAX_OUTPUT_LINE_BYTES - |line|;
      if |p| > remaining {
        p := p[..remaining];
        complete, truncated := true, true;
      }
      line := line + p;
    }
  }

  /** The first line is cut at its length, not at a chunk's end. */
  method RetainFirstLine(chunks: seq<seq<byte>>) returns (line: seq<byte>, truncated: bool)
    ensures line == Cut(FirstLine(Concat(chunks)), MAX_OUTPUT_LINE_BYTES)
    ensures truncated <==> |FirstLine(Concat(chunks))| > MAX_OUTPUT_LINE_BYTES
  {
    var writer := new FirstLineWriter();
    for i := 0 to |chunks|
      invariant writer.Valid() && writer.stream == Concat(chunks[..i]) && fresh(writer)
    {
      ConcatExtend(chunks, i);
      writer.Write(chunks[i]);
    }
    assert chunks[..|chunks|] == chunks;
    line, truncated := writer.line, writer.truncated;
  }
}
