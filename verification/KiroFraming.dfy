/** How the Kiro executor cuts its upstream bytes into frames (open-sse/executors/kiro.js).

    A frame starts with its own length, so the batch parser is greedy: take frames off the front
    while a complete one is there. The executor does this chunk by chunk, at most 1000 frames a
    call, and what is left waits for the next chunk. */
module KiroFraming {
  import opened Basics
  import opened Bytes

  const MIN_FRAME := 16
  const MAX_ITERATIONS: nat := 1000

  /** The length of the frame at the front, if it is there in full. */
  function Head(b: seq<byte>): (r: Option<nat>)
    ensures r.Some? ==> MIN_FRAME <= r.value <= |b|
  {
    if |b| < MIN_FRAME || U32(b, 0) < MIN_FRAME || U32(b, 0) > |b| then None else Some(U32(b, 0))
  }

  /** Every complete frame, in order. */
  function Greedy(b: seq<byte>): seq<seq<byte>>
    decreases |b|
  {
    match Head(b)
    case None => []
    case Some(n) => [b[..n]] + Greedy(b[n..])
  }

  /** At most `k` frames, and the bytes behind them. */
  function Take(b: seq<byte>, k: nat): (seq<seq<byte>>, seq<byte>)
    decreases k
  {
    if k == 0 || Head(b).None? then ([], b)
    else
      var n := Head(b).value;
      var (frames, rest) := Take(b[n..], k - 1);
      ([b[..n]] + frames, rest)
  }

  datatype Stream = Stream(frames: seq<seq<byte>>, buffer: seq<byte>)

  function Receive(s: Stream, chunk: seq<byte>): Stream {
    var (frames, rest) := Take(s.buffer + chunk, MAX_ITERATIONS);
    Stream(s.frames + frames, rest)
  }

  function ReceiveAll(chunks: seq<seq<byte>>): Stream {
    if chunks == [] then Stream([], [])
    else Receive(ReceiveAll(chunks[..|chunks| - 1]), chunks[|chunks| - 1])
  }

  // ---------------------------------------------------------------- the parser and cuts

  lemma HeadStays(a: seq<byte>, b: seq<byte>)
    requires Head(a).Some?
    ensures Head(a + b) == Head(a)
    ensures var n := Head(a).value; (a + b)[..n] == a[..n] && (a + b)[n..] == a[n..] + b
  {
    assert forall i :: 0 <= i < 4 ==> (a + b)[i] == a[i];
  }

  /** Taking some frames first changes nothing: the parse of what is left continues the parse. */
  lemma {:induction false} TakeContinues(a: seq<byte>, b: seq<byte>, k: nat)
    ensures var (frames, rest) := Take(a, k); Greedy(a + b) == frames + Greedy(rest + b)
    decreases k
  {
    if k == 0 || Head(a).None? {
      assert [] + Greedy(a + b) == Greedy(a + b);
    } else {
      var n := Head(a).value;
      HeadStays(a, b);
      TakeContinues(a[n..], b, k - 1);
      var (frames, rest) := Take(a[n..], k - 1);
      Assoc([a[..n]], frames, Greedy(rest + b));
    }
  }

  /** No byte is invented, lost or moved. */
  lemma {:induction false} TakeKeepsBytes(b: seq<byte>, k: nat)
    ensures var (frames, rest) := Take(b, k); Flatten(frames) + rest == b
    decreases k
  {
    hide Flatten, Head;
    if k > 0 && Head(b).Some? {
      var n := Head(b).value;
      TakeKeepsBytes(b[n..], k - 1);
      PutBack(b, n, Take(b[n..], k - 1).0, Take(b[n..], k - 1).1);
    } else {
      PutNothingBack(b);
    }
  }

  lemma PutNothingBack(b: seq<byte>)
    ensures Flatten([]) + b == b
  {
    assert [] + b == b;
  }

  lemma PutBack(b: seq<byte>, n: nat, frames: seq<seq<byte>>, rest: seq<byte>)
    requires n <= |b| && Flatten(frames) + rest == b[n..]
    ensures Flatten([b[..n]] + frames) + rest == b
  {
    hide Flatten;
    FlattenConcat([b[..n]], frames);
    FlattenOne(b[..n]);
    Assoc(b[..n], Flatten(frames), rest);
    assert b[..n] + b[n..] == b;
  }

  /** `Take` is the first `k` frames of the parse. */
  lemma {:induction false} TakeIsPrefix(b: seq<byte>, k: nat)
    ensures var (frames, rest) := Take(b, k);
            && |frames| == Min(|Greedy(b)|, k)
            && frames == Greedy(b)[..|frames|]
            && Greedy(rest) == Greedy(b)[|frames|..]
    decreases k
  {
    if k > 0 && Head(b).Some? {
      TakeIsPrefix(b[Head(b).value..], k - 1);
    }
  }

  /** Taking one frame more. */
  lemma {:induction false} TakeOneMore(b: seq<byte>, k: nat)
    requires |Take(b, k).0| == k && Head(Take(b, k).1).Some?
    ensures var (frames, rest) := Take(b, k);
            var n := Head(rest).value;
            Take(b, k + 1) == (frames + [rest[..n]], rest[n..])
    decreases k
  {
    hide Head;
    var n := Head(b).value;
    if k > 0 {
      TakeOneMore(b[n..], k - 1);
      var (frames, rest) := Take(b[n..], k - 1);
      assert Take(b, k) == ([b[..n]] + frames, rest);
      Assoc([b[..n]], frames, [rest[..Head(rest).value]]);
    } else {
      assert [b[..n]] + [] == [] + [b[..n]];
      assert Take(b[n..], 0) == ([], b[n..]);
    }
  }

  /** Once no frame is there, asking for more changes nothing. */
  lemma {:induction false} TakeStuck(b: seq<byte>, k: nat, m: nat)
    requires k <= m && (k == m || Head(Take(b, k).1).None?)
    ensures Take(b, m) == Take(b, k)
    decreases k
  {
    if k > 0 && Head(b).Some? { TakeStuck(b[Head(b).value..], k - 1, m - 1); }
  }

  /** Fewer frames are the first of more. */
  lemma {:induction false} TakeFewer(b: seq<byte>, k: nat, m: nat)
    requires k <= m
    ensures Take(b, k).0 <= Take(b, m).0
    decreases k
  {
    if k > 0 && Head(b).Some? { TakeFewer(b[Head(b).value..], k - 1, m - 1); }
  }

  // ---------------------------------------------------------------- any way of cutting

  /** The parse of all bytes received, and of any more behind them, is the frames given out followed
      by the parse of the buffer. */
  lemma {:induction false} Continues(chunks: seq<seq<byte>>, more: seq<byte>)
    ensures Greedy(Flatten(chunks) + more) == ReceiveAll(chunks).frames + Greedy(ReceiveAll(chunks).buffer + more)
  {
    if chunks == [] {
      assert [] + more == more;
      assert [] + Greedy(more) == Greedy(more);
    } else {
      hide Take, Greedy, Head;
      var before, chunk := chunks[..|chunks| - 1], chunks[|chunks| - 1];
      var s := ReceiveAll(before);
      Continues(before, chunk + more);
      TakeContinues(s.buffer + chunk, more, MAX_ITERATIONS);
      var (frames, rest) := Take(s.buffer + chunk, MAX_ITERATIONS);
      Assoc(Flatten(before), chunk, more);
      Assoc(s.buffer, chunk, more);
      Assoc(s.frames, frames, Greedy(rest + more));
    }
  }

  lemma {:induction false} KeepsBytes(chunks: seq<seq<byte>>)
    ensures Flatten(ReceiveAll(chunks).frames) + ReceiveAll(chunks).buffer == Flatten(chunks)
  {
    if chunks != [] {
      hide Take;
      var before, chunk := chunks[..|chunks| - 1], chunks[|chunks| - 1];
      var s := ReceiveAll(before);
      KeepsBytes(before);
      TakeKeepsBytes(s.buffer + chunk, MAX_ITERATIONS);
      var (frames, rest) := Take(s.buffer + chunk, MAX_ITERATIONS);
      FlattenConcat(s.frames, frames);
      Assoc(Flatten(s.frames), Flatten(frames), rest);
      Assoc(Flatten(s.frames), s.buffer, chunk);
    }
  }

  /** After any chunks: the frames given out and the buffer are all the bytes received, and the parse
      of all bytes is the frames given out followed by the parse of the buffer. */
  lemma Refines(chunks: seq<seq<byte>>)
    ensures var s := ReceiveAll(chunks);
            && Flatten(s.frames) + s.buffer == Flatten(chunks)
            && Greedy(Flatten(chunks)) == s.frames + Greedy(s.buffer)
  {
    KeepsBytes(chunks);
    Continues(chunks, []);
    assert Flatten(chunks) + [] == Flatten(chunks) && ReceiveAll(chunks).buffer + [] == ReceiveAll(chunks).buffer;
  }

  /** Whether a call is cut short by the iteration cap. */
  predicate Capped(s: Stream, chunk: seq<byte>) { |Greedy(s.buffer + chunk)| > MAX_ITERATIONS }

  /** The frames given out are exactly the parse of everything received if and only if the last call
      was not cut short: earlier calls that were do not matter. */
  lemma ExactUnlessCapped(chunks: seq<seq<byte>>, chunk: seq<byte>)
    ensures ReceiveAll(chunks + [chunk]).frames == Greedy(Flatten(chunks + [chunk])) <==>
              !Capped(ReceiveAll(chunks), chunk)
  {
    Refines(chunks + [chunk]);
    assert (chunks + [chunk])[..|chunks|] == chunks;
    TakeIsPrefix(ReceiveAll(chunks).buffer + chunk, MAX_ITERATIONS);
  }

  /** Two ways of cutting the same bytes give the same frames, unless a last call was cut short. */
  lemma CutsDoNotMatter(a: seq<seq<byte>>, x: seq<byte>, b: seq<seq<byte>>, y: seq<byte>)
    requires Flatten(a + [x]) == Flatten(b + [y])
    requires !Capped(ReceiveAll(a), x) && !Capped(ReceiveAll(b), y)
    ensures ReceiveAll(a + [x]) == ReceiveAll(b + [y])
  {
    hide ReceiveAll, Flatten, Greedy, Capped;
    ExactUnlessCapped(a, x);
    ExactUnlessCapped(b, y);
    Refines(a + [x]);
    Refines(b + [y]);
    Cancel(Flatten(ReceiveAll(a + [x]).frames), ReceiveAll(a + [x]).buffer, ReceiveAll(b + [y]).buffer);
  }

  /** A length below the minimum stalls the stream for good: no later bytes ever yield a frame. */
  lemma Stalled(b: seq<byte>, more: seq<byte>)
    requires |b| >= MIN_FRAME && U32(b, 0) < MIN_FRAME
    ensures Greedy(b + more) == []
  {
    assert forall i :: 0 <= i < 4 ==> (b + more)[i] == b[i];
  }

  /** `n` empty frames. */
  function Blank(n: nat): seq<byte> {
    if n == 0 then [] else PutU32(MIN_FRAME) + seq(12, _ => 0) + Blank(n - 1)
  }

  lemma {:induction false} BlankFrames(n: nat)
    ensures |Greedy(Blank(n))| == n
  {
    if n > 0 {
      var frame := PutU32(MIN_FRAME) + seq(12, _ => 0);
      assert U32(Blank(n), 0) == U32(PutU32(MIN_FRAME), 0);
      assert Blank(n)[MIN_FRAME..] == Blank(n - 1);
      BlankFrames(n - 1);
    }
  }

  /** The cap is real: of 1001 frames in one chunk the last is not given out, and is lost if the
      stream ends there; a further chunk, even an empty one, brings it. */
  lemma CapLosesAFrame()
    ensures |ReceiveAll([Blank(1001)]).frames| == 1000
    ensures ReceiveAll([Blank(1001)]).frames != Greedy(Flatten([Blank(1001)]))
    ensures ReceiveAll([Blank(1001), []]).frames == Greedy(Flatten([Blank(1001), []]))
  {
    hide Blank, Take, Greedy, Head;
    var b := Blank(1001);
    BlankFrames(1001);
    assert [] + b == b;
    var none: seq<seq<byte>> := [];
    assert [b][..0] == none && none + [b] == [b] && none + [[]] == [[]];
    TakeIsPrefix(b, MAX_ITERATIONS);
    ExactUnlessCapped(none, b);
    var s := ReceiveAll([b]);
    assert s.buffer + [] == s.buffer;
    assert [b] + [[]] == [b, []];
    ExactUnlessCapped([b], []);
  }
}
