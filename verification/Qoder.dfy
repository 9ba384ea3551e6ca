/** The Qoder executor's unwrapping of enveloped events (open-sse/executors/qoder.js). Upstream text
    arrives in pieces, is cut into lines at line feeds, and each line gives at most one payload. */
module Qoder {
  import opened Basics
  import opened Text

  // ---------------------------------------------------------------- lines

  function IndexOfLf(s: string): (r: Option<nat>)
    ensures r.Some? ==> r.value < |s| && s[r.value] == '\n' && '\n' !in s[..r.value]
    ensures r.None? ==> '\n' !in s
  {
    if s == "" then None
    else if s[0] == '\n' then Some(0)
    else
      match IndexOfLf(s[1..])
      case None => None
      case Some(i) => assert s[..i + 1] == [s[0]] + s[1..][..i]; Some(i + 1)
  }

  /** The complete lines of a text, without their line feeds. */
  function Lines(s: string): seq<string>
    decreases |s|
  {
    match IndexOfLf(s)
    case None => []
    case Some(i) => [s[..i]] + Lines(s[i + 1..])
  }

  /** What stands behind the last line feed. */
  function Rest(s: string): (r: string)
    ensures |r| <= |s| && '\n' !in r
    decreases |s|
  {
    match IndexOfLf(s)
    case None => s
    case Some(i) => Rest(s[i + 1..])
  }

  lemma {:induction false} IndexAt(s: string, i: nat)
    requires i < |s| && s[i] == '\n' && '\n' !in s[..i]
    ensures IndexOfLf(s) == Some(i)
  {
    if i > 0 {
      assert s[..i][0] == s[0] && s[1..][..i - 1] == s[..i][1..];
      IndexAt(s[1..], i - 1);
    }
  }

  /** Lines behind a first one. */
  lemma LineFirst(line: string, behind: string)
    requires '\n' !in line
    ensures Lines(line + "\n" + behind) == [line] + Lines(behind)
    ensures Rest(line + "\n" + behind) == Rest(behind)
  {
    var s := line + "\n" + behind;
    assert s[..|line|] == line && s[|line| + 1..] == behind;
    IndexAt(s, |line|);
  }

  /** A text can be cut into lines piece by piece. */
  lemma {:induction false} LinesConcat(a: string, b: string)
    ensures Lines(a + b) == Lines(a) + Lines(Rest(a) + b)
    ensures Rest(a + b) == Rest(Rest(a) + b)
    decreases |a|
  {
    match IndexOfLf(a)
    case None => assert [] + Lines(a + b) == Lines(a + b);
    case Some(i) =>
      hide Lines, Rest;
      var line, more := a[..i], a[i + 1..];
      LinesConcat(more, b);
      assert line + "\n" + more == a;
      Assoc(line + "\n", more, b);
      LineFirst(line, more);
      LineFirst(line, more + b);
      Assoc([line], Lines(more), Lines(Rest(more) + b));
  }

  // ---------------------------------------------------------------- one line

  /** What the JSON parser makes of a payload: no JSON; null, whose fields cannot be read; or a value
      with its status, 200 where it has none, and its body, empty where it has none. */
  datatype Parsed = NotJson | Null | Envelope(status: int, body: string)

  /** `parse` is the JSON parser, `errorChunk` the JSON text of the chunk that reports an error with a
      message, at a time that goes into its id; an empty message stands for the one that names the status.
      `now` is that time: a stream reports one error at most. */
  datatype Codec = Codec(parse: string -> Parsed, errorChunk: (nat, int, string) -> string, now: nat)

  function ErrorChunk(c: Codec, status: int, message: string): string { c.errorChunk(c.now, status, message) }

  /** `out` lists the payloads sent; each goes out as a `data:` line and an empty line. */
  datatype State = State(done: bool, failed: bool, out: seq<string>)

  const START := State(false, false, [])

  const DONE := "[DONE]"

  function Truncate(s: string, n: nat): string { if |s| > n then s[..n] + "..." else s }

  /** Every line feed goes, and a carriage return before it. */
  function Sanitize(s: string): string {
    if s == "" then ""
    else if s[0] == '\n' then Sanitize(s[1..])
    else if s[0] == '\r' && |s| > 1 && s[1] == '\n' then Sanitize(s[2..])
    else [s[0]] + Sanitize(s[1..])
  }

  function DropCr(line: string): string {
    if line != "" && line[|line| - 1] == '\r' then line[..|line| - 1] else line
  }

  /** The payload of a `data:` line. */
  function PayloadOf(line: string): Option<string> {
    var trimmed := Trim(DropCr(line));
    if |trimmed| >= 5 && trimmed[..5] == "data:" then Some(TrimStart(trimmed[5..])) else None
  }

  function Process(c: Codec, s: State, line: string): State {
    match PayloadOf(line)
    case None => s
    case Some(data) =>
      if s.done || s.failed then s
      else if data == DONE then s.(done := true, out := s.out + [DONE])
      else
        match c.parse(data)
        case NotJson => s
        case Null => s.(failed := true)
        case Envelope(status, body) =>
          if status != 200 then s.(done := true, out := s.out + [ErrorChunk(c, status, Truncate(body, 200)), DONE])
          else if body == "" then s
          else if body == DONE then s.(done := true, out := s.out + [DONE])
          else s.(out := s.out + [Sanitize(body)])
  }

  function ProcessAll(c: Codec, s: State, lines: seq<string>): State {
    if lines == [] then s else Process(c, ProcessAll(c, s, lines[..|lines| - 1]), lines[|lines| - 1])
  }

  /** The end of the stream. */
  function Close(s: State): State { if s.done || s.failed then s else s.(done := true, out := s.out + [DONE]) }

  /** A whole response, read as one text. */
  function Unwrap(c: Codec, text: string): State { Close(Process(c, ProcessAll(c, START, Lines(text)), Rest(text))) }

  // ---------------------------------------------------------------- any way of cutting

  datatype Pipe = Pipe(buffer: string, state: State)

  function Transform(c: Codec, p: Pipe, piece: string): Pipe {
    var all := p.buffer + piece;
    Pipe(Rest(all), ProcessAll(c, p.state, Lines(all)))
  }

  function TransformAll(c: Codec, pieces: seq<string>): Pipe {
    if pieces == [] then Pipe("", START)
    else Transform(c, TransformAll(c, pieces[..|pieces| - 1]), pieces[|pieces| - 1])
  }

  /** `tail` is what the text decoder still held back. */
  function Flush(c: Codec, p: Pipe, tail: string): State { Close(Process(c, p.state, p.buffer + tail)) }

  lemma {:induction false} ProcessConcat(c: Codec, s: State, a: seq<string>, b: seq<string>)
    ensures ProcessAll(c, s, a + b) == ProcessAll(c, ProcessAll(c, s, a), b)
  {
    if b == [] {
      assert a + b == a;
    } else {
      hide Process;
      assert (a + b)[..|a + b| - 1] == a + b[..|b| - 1];
      ProcessConcat(c, s, a, b[..|b| - 1]);
    }
  }

  lemma {:induction false} PipeRun(c: Codec, pieces: seq<string>)
    ensures TransformAll(c, pieces) == Pipe(Rest(Flatten(pieces)), ProcessAll(c, START, Lines(Flatten(pieces))))
  {
    if pieces != [] {
      hide ProcessAll, Lines, Rest;
      var before, piece := Flatten(pieces[..|pieces| - 1]), pieces[|pieces| - 1];
      PipeRun(c, pieces[..|pieces| - 1]);
      LinesConcat(before, piece);
      ProcessConcat(c, START, Lines(before), Lines(Rest(before) + piece));
    } else {
      assert Flatten<char>([]) == "";
    }
  }

  /** However a text is cut into pieces, what is sent by the end is what its lines give, in order. */
  lemma CutsDoNotMatter(c: Codec, pieces: seq<string>, tail: string)
    requires '\n' !in tail
    ensures Flush(c, TransformAll(c, pieces), tail) == Unwrap(c, Flatten(pieces) + tail)
  {
    hide Process, ProcessAll, TransformAll;
    var text := Flatten(pieces);
    PipeRun(c, pieces);
    LinesConcat(text, tail);
    assert IndexOfLf(Rest(text) + tail).None?;
    assert Lines(text) + [] == Lines(text);
  }

  // ---------------------------------------------------------------- the time of an error

  /** The same payload, or the same error reported at two times. */
  ghost predicate SamePayload(c: Codec, d: Codec, p: string, q: string) {
    p == q || exists status, message :: p == ErrorChunk(c, status, message) && q == ErrorChunk(d, status, message)
  }

  ghost predicate SameSent(c: Codec, d: Codec, s: State, t: State) {
    && s.done == t.done && s.failed == t.failed && |s.out| == |t.out|
    && forall k :: 0 <= k < |s.out| ==> SamePayload(c, d, s.out[k], t.out[k])
  }

  lemma SentMore(c: Codec, d: Codec, s: State, t: State, p: string, q: string, done: bool)
    requires SameSent(c, d, s, t) && SamePayload(c, d, p, q)
    ensures SameSent(c, d, s.(done := done, out := s.out + [p]), t.(done := done, out := t.out + [q]))
  {
    hide SamePayload;
  }

  lemma SameProcess(c: Codec, d: Codec, s: State, t: State, line: string)
    requires SameSent(c, d, s, t) && d == c.(now := d.now)
    ensures SameSent(c, d, Process(c, s, line), Process(d, t, line))
  {
    hide SameSent, PayloadOf, Sanitize, Truncate;
    assert s.done == t.done && s.failed == t.failed by { SameFlags(c, d, s, t); }
    var data := PayloadOf(line);
    if data.Some? && !s.done && !s.failed {
      SentMore(c, d, s, t, DONE, DONE, true);
      var p := c.parse(data.value);
      if p.Envelope? {
        var message := Truncate(p.body, 200);
        var a, b := ErrorChunk(c, p.status, message), ErrorChunk(d, p.status, message);
        assert SamePayload(c, d, a, b);
        SentMore(c, d, s, t, a, b, false);
        SentMore(c, d, s.(done := false, out := s.out + [a]), t.(done := false, out := t.out + [b]), DONE, DONE, true);
        Assoc(s.out, [a], [DONE]);
        Assoc(t.out, [b], [DONE]);
        assert [a] + [DONE] == [a, DONE] && [b] + [DONE] == [b, DONE];
        SentMore(c, d, s, t, Sanitize(p.body), Sanitize(p.body), false);
      } else if p.Null? {
        SameFailed(c, d, s, t);
      }
    }
  }

  lemma SameFlags(c: Codec, d: Codec, s: State, t: State)
    requires SameSent(c, d, s, t)
    ensures s.done == t.done && s.failed == t.failed
  {
  }

  lemma SameFailed(c: Codec, d: Codec, s: State, t: State)
    requires SameSent(c, d, s, t)
    ensures SameSent(c, d, s.(failed := true), t.(failed := true))
  {
    hide SamePayload;
  }

  lemma {:induction false} SameAll(c: Codec, d: Codec, lines: seq<string>)
    requires d == c.(now := d.now)
    ensures SameSent(c, d, ProcessAll(c, START, lines), ProcessAll(d, START, lines))
  {
    if lines != [] {
      hide SameSent, Process;
      var init := lines[..|lines| - 1];
      SameAll(c, d, init);
      SameProcess(c, d, ProcessAll(c, START, init), ProcessAll(d, START, init), lines[|lines| - 1]);
    }
  }

  /** The time shows nowhere but in the error chunk: at two times, and however the text is cut, the payloads
      are the same, or report the same error. */
  lemma TimeOnlyInErrors(c: Codec, d: Codec, a: seq<string>, b: seq<string>, x: string, y: string)
    requires d == c.(now := d.now) && '\n' !in x && '\n' !in y && Flatten(a) + x == Flatten(b) + y
    ensures SameSent(c, d, Flush(c, TransformAll(c, a), x), Flush(d, TransformAll(d, b), y))
  {
    hide SameSent, Flush, TransformAll, Unwrap, ProcessAll, Flatten, AllLines, Close;
    CutsDoNotMatter(c, a, x);
    CutsDoNotMatter(d, b, y);
    var text := Flatten(a) + x;
    UnwrapLines(c, text);
    UnwrapLines(d, text);
    SameAll(c, d, AllLines(text));
    SameClose(c, d, ProcessAll(c, START, AllLines(text)), ProcessAll(d, START, AllLines(text)));
  }

  lemma SameClose(c: Codec, d: Codec, s: State, t: State)
    requires SameSent(c, d, s, t)
    ensures SameSent(c, d, Close(s), Close(t))
  {
    SentMore(c, d, s, t, DONE, DONE, true);
    hide SamePayload;
  }

  // ---------------------------------------------------------------- what is sent

  /** The bodies that were forwarded, before anything ended the stream. */
  function Forwarded(c: Codec, lines: seq<string>): seq<string> {
    if lines == [] then []
    else
      var before, line := lines[..|lines| - 1], lines[|lines| - 1];
      var s := ProcessAll(c, START, before);
      Forwarded(c, before) + (if s.done || s.failed then [] else BodyOf(c, line))
  }

  /** The body a line forwards, if any. */
  function BodyOf(c: Codec, line: string): seq<string> {
    match PayloadOf(line)
    case None => []
    case Some(data) =>
      if data == DONE then []
      else
        match c.parse(data)
        case Envelope(status, body) => if status == 200 && body != "" && body != DONE then [body] else []
        case _ => []
  }

  function SanitizeAll(bodies: seq<string>): seq<string> {
    seq(|bodies|, i requires 0 <= i < |bodies| => Sanitize(bodies[i]))
  }

  /** What the JSON printer writes has no line ends and is never the end mark. */
  ghost predicate PrintsJson(c: Codec) {
    forall status, message :: '\n' !in ErrorChunk(c, status, message) && '\r' !in ErrorChunk(c, status, message)
                              && ErrorChunk(c, status, message) != DONE
  }

  /** The payloads so far: the sanitized bodies, and at the end the mark, after an error chunk or not. */
  ghost predicate OutOk(c: Codec, s: State, bodies: seq<string>) {
    if !s.done then s.out == SanitizeAll(bodies)
    else
      || s.out == SanitizeAll(bodies) + [DONE]
      || exists status, message :: s.out == SanitizeAll(bodies) + [ErrorChunk(c, status, message), DONE]
  }

  lemma OutStep(c: Codec, s: State, bodies: seq<string>, line: string)
    requires OutOk(c, s, bodies)
    ensures OutOk(c, Process(c, s, line), bodies + (if s.done || s.failed then [] else BodyOf(c, line)))
  {
    hide PayloadOf, Sanitize;
    assert bodies + [] == bodies;
    var data := PayloadOf(line);
    if data.Some? && !s.done && !s.failed && data.value != DONE {
      var p := c.parse(data.value);
      if p.Envelope? && p.status == 200 && p.body != "" && p.body != DONE {
        assert SanitizeAll(bodies + [p.body]) == SanitizeAll(bodies) + [Sanitize(p.body)];
      }
    }
  }

  lemma {:induction false} OutRun(c: Codec, lines: seq<string>)
    ensures OutOk(c, ProcessAll(c, START, lines), Forwarded(c, lines))
  {
    if lines != [] {
      hide Process, OutOk, BodyOf;
      OutRun(c, lines[..|lines| - 1]);
      OutStep(c, ProcessAll(c, START, lines[..|lines| - 1]), Forwarded(c, lines[..|lines| - 1]), lines[|lines| - 1]);
    }
  }

  /** The lines of a whole text, with what stands behind the last line feed as the last one. */
  function AllLines(text: string): seq<string> { Lines(text) + [Rest(text)] }

  lemma UnwrapLines(c: Codec, text: string)
    ensures Unwrap(c, text) == Close(ProcessAll(c, START, AllLines(text)))
  {
    assert AllLines(text)[..|AllLines(text)| - 1] == Lines(text);
  }

  /** A stream that does not fail is completed: the forwarded bodies, each on one line, then the error chunk
      if there was an error, and the end mark last. One that fails has sent the forwarded bodies. */
  lemma Completed(c: Codec, text: string)
    ensures var s := Unwrap(c, text); (s.done || s.failed) && OutOk(c, s, Forwarded(c, AllLines(text)))
  {
    hide Unwrap, ProcessAll, Lines, Rest;
    UnwrapLines(c, text);
    OutRun(c, AllLines(text));
  }

  // ---------------------------------------------------------------- the end mark

  function CountDone(out: seq<string>): nat {
    if out == [] then 0 else CountDone(out[..|out| - 1]) + (if out[|out| - 1] == DONE then 1 else 0)
  }

  lemma {:induction false} CountConcat(a: seq<string>, b: seq<string>)
    ensures CountDone(a + b) == CountDone(a) + CountDone(b)
  {
    if b == [] {
      assert a + b == a;
    } else {
      assert (a + b)[..|a + b| - 1] == a + b[..|b| - 1];
      CountConcat(a, b[..|b| - 1]);
    }
  }

  lemma {:induction false} CountNone(out: seq<string>)
    ensures CountDone(out) == 0 <==> DONE !in out
  {
    if out != [] {
      CountNone(out[..|out| - 1]);
      assert out == out[..|out| - 1] + [out[|out| - 1]];
    }
  }

  /** A completed stream always ends with the mark. It is sent once if and only if no forwarded body is
      the mark with line breaks in it: such a body is not recognised, but becomes the mark. */
  lemma DoneOnce(c: Codec, text: string)
    requires PrintsJson(c) && !Unwrap(c, text).failed
    ensures var out := Unwrap(c, text).out;
            && out != [] && out[|out| - 1] == DONE
            && (CountDone(out) == 1 <==> forall b :: b in Forwarded(c, AllLines(text)) ==> Sanitize(b) != DONE)
  {
    Completed(c, text);
    hide Unwrap, Forwarded, Sanitize, AllLines;
    var out, bodies := Unwrap(c, text).out, Forwarded(c, AllLines(text));
    var sent := SanitizeAll(bodies);
    var end := out[|sent|..];
    assert out == sent + end;
    CountConcat(sent, end);
    assert CountDone(end) == 1 by { EndOnce(c, end); }
    CountNone(sent);
    if exists b :: b in bodies && Sanitize(b) == DONE {
      var i :| 0 <= i < |bodies| && Sanitize(bodies[i]) == DONE;
      assert sent[i] == DONE;
    }
  }

  /** Any text with a line feed behind it is sent without it; so the end mark with a line feed is sent as
      the end mark. */
  lemma {:induction false} LineFeedGoes(s: string)
    requires '\n' !in s && '\r' !in s
    ensures Sanitize(s + "\n") == s
  {
    if s != "" {
      assert (s + "\n")[1..] == s[1..] + "\n";
      LineFeedGoes(s[1..]);
      assert [s[0]] + s[1..] == s;
    }
  }

  lemma EndOnce(c: Codec, end: seq<string>)
    requires PrintsJson(c)
    requires end == [DONE] || exists status, message :: end == [ErrorChunk(c, status, message), DONE]
    ensures CountDone(end) == 1
  {
    CountMark();
    if end != [DONE] {
      var status, message :| end == [ErrorChunk(c, status, message), DONE];
      CountNone([ErrorChunk(c, status, message)]);
      CountConcat([ErrorChunk(c, status, message)], [DONE]);
      assert end == [ErrorChunk(c, status, message)] + [DONE];
    }
  }

  lemma CountMark()
    ensures CountDone([DONE]) == 1
  {
    var none: seq<string> := [];
    assert [DONE][..0] == none && CountDone(none) == 0;
  }

  // ---------------------------------------------------------------- one line per payload

  lemma {:induction false} NoLf(s: string)
    ensures '\n' !in Sanitize(s)
    decreases |s|
  {
    if s != "" {
      if s[0] == '\n' { NoLf(s[1..]); }
      else if s[0] == '\r' && |s| > 1 && s[1] == '\n' { NoLf(s[2..]); }
      else { NoLf(s[1..]); }
    }
  }

  /** A carriage return that no line feed follows. */
  predicate LoneCrAt(s: string, i: nat) { i < |s| && s[i] == '\r' && (i + 1 < |s| ==> s[i + 1] != '\n') }

  ghost predicate HasLoneCr(s: string) { exists i: nat :: LoneCrAt(s, i) }

  lemma LoneCrStep(s: string, n: nat)
    requires n <= |s| && forall i: nat :: i < n ==> !LoneCrAt(s, i)
    ensures HasLoneCr(s) <==> HasLoneCr(s[n..])
  {
    if HasLoneCr(s) {
      var i: nat :| LoneCrAt(s, i);
      assert LoneCrAt(s[n..], i - n);
    }
    if HasLoneCr(s[n..]) {
      var i: nat :| LoneCrAt(s[n..], i);
      assert LoneCrAt(s, i + n);
    }
  }

  /** Sanitizing leaves a line end, a lone carriage return, exactly when the body has one. */
  lemma {:induction false} CrStays(s: string)
    ensures '\r' in Sanitize(s) <==> HasLoneCr(s)
    decreases |s|
  {
    if s != "" {
      if s[0] == '\n' {
        CrStays(s[1..]);
        LoneCrStep(s, 1);
      } else if s[0] == '\r' && |s| > 1 && s[1] == '\n' {
        CrStays(s[2..]);
        LoneCrStep(s, 2);
      } else if s[0] == '\r' {
        assert LoneCrAt(s, 0);
      } else {
        CrStays(s[1..]);
        LoneCrStep(s, 1);
      }
    }
  }

  lemma BodiesOnLines(bodies: seq<string>)
    ensures forall p :: p in SanitizeAll(bodies) ==> '\n' !in p
    ensures (exists p :: p in SanitizeAll(bodies) && '\r' in p) <==> exists b :: b in bodies && HasLoneCr(b)
  {
    hide Sanitize, HasLoneCr;
    var sent := SanitizeAll(bodies);
    forall b ensures '\n' !in Sanitize(b) && ('\r' in Sanitize(b) <==> HasLoneCr(b)) {
      NoLf(b);
      CrStays(b);
    }
    if exists b :: b in bodies && HasLoneCr(b) {
      var i :| 0 <= i < |bodies| && HasLoneCr(bodies[i]);
      assert sent[i] == Sanitize(bodies[i]);
    }
  }

  lemma OutParts(c: Codec, s: State, bodies: seq<string>)
    requires PrintsJson(c) && OutOk(c, s, bodies)
    ensures forall p :: p in s.out ==> p in SanitizeAll(bodies) || ('\n' !in p && '\r' !in p)
    ensures forall p :: p in SanitizeAll(bodies) ==> p in s.out
  {
    hide Sanitize;
    var sent := SanitizeAll(bodies);
    hide SanitizeAll;
    if s.done && s.out != sent + [DONE] {
      var status, message :| s.out == sent + [ErrorChunk(c, status, message), DONE];
      assert forall p :: p in [ErrorChunk(c, status, message), DONE] ==> '\n' !in p && '\r' !in p;
    }
  }

  /** No payload contains a line feed. One contains a carriage return, which a client may take for the
      end of the line, exactly if a forwarded body has one that no line feed follows. */
  lemma OneLineEach(c: Codec, text: string)
    requires PrintsJson(c)
    ensures forall p :: p in Unwrap(c, text).out ==> '\n' !in p
    ensures (exists p :: p in Unwrap(c, text).out && '\r' in p) <==>
              exists b :: b in Forwarded(c, AllLines(text)) && HasLoneCr(b)
  {
    hide Unwrap, Forwarded, AllLines, SanitizeAll, HasLoneCr, OutOk;
    Completed(c, text);
    OutParts(c, Unwrap(c, text), Forwarded(c, AllLines(text)));
    BodiesOnLines(Forwarded(c, AllLines(text)));
  }

  // ---------------------------------------------------------------- on the wire

  /** Each payload on its line, and an empty line. */
  function Wire(out: seq<string>): string {
    if out == [] then "" else ("data: " + out[0]) + "\n" + ("" + "\n" + Wire(out[1..]))
  }

  /** What a client that cuts the text at line feeds reads from the `data: ` lines. */
  function Read(lines: seq<string>): seq<string> {
    if lines == [] then []
    else (if |lines[0]| >= 6 && lines[0][..6] == "data: " then [lines[0][6..]] else []) + Read(lines[1..])
  }

  lemma ReadOne(p: string, more: seq<string>)
    ensures Read(["data: " + p] + ([""] + more)) == [p] + Read(more)
  {
    var line := "data: " + p;
    assert line[..6] == "data: " && line[6..] == p;
    assert ([line] + ([""] + more))[1..] == [""] + more;
    assert ([""] + more)[1..] == more;
    assert [] + Read(more) == Read(more);
  }

  /** Such a client reads exactly the payloads sent. */
  lemma {:induction false} WireRoundTrip(out: seq<string>)
    requires forall p :: p in out ==> '\n' !in p
    ensures Read(Lines(Wire(out))) == out
  {
    if out != [] {
      hide Lines, Rest, Read;
      var behind := Wire(out[1..]);
      LineFirst("data: " + out[0], "" + "\n" + behind);
      LineFirst("", behind);
      ReadOne(out[0], Lines(behind));
      WireRoundTrip(out[1..]);
      assert [out[0]] + out[1..] == out;
    } else {
      assert Lines("") == [];
    }
  }

  // ---------------------------------------------------------------- the program

  lemma NoLines(c: Codec, s: State)
    ensures ProcessAll(c, s, []) == s
  {
  }

  lemma LastLine(s: string)
    requires '\n' !in s
    ensures Lines(s) == [] && Rest(s) == s
  {
  }

  lemma NextLine(c: Codec, s: State, all: string, done: seq<string>, buffer: string, i: nat)
    requires IndexOfLf(buffer) == Some(i) && Lines(all) == done + Lines(buffer)
    ensures var line, more := buffer[..i], buffer[i + 1..];
            && Lines(all) == done + [line] + Lines(more) && Rest(buffer) == Rest(more)
            && ProcessAll(c, s, done + [line]) == Process(c, ProcessAll(c, s, done), line)
  {
    hide Process;
    Assoc(done, [buffer[..i]], Lines(buffer[i + 1..]));
    assert (done + [buffer[..i]])[..|done|] == done;
  }

  class Unwrapper {
    const codec: Codec
    var buffer: string
    var doneEmitted: bool
    var failed: bool
    var out: seq<string>

    ghost function View(): State
      reads this
    {
      State(doneEmitted, failed, out)
    }

    constructor (codec: Codec)
      ensures this.codec == codec && buffer == "" && View() == START
    {
      this.codec, buffer, doneEmitted, failed, out := codec, "", false, false, [];
    }

    method ProcessLine(line: string)
      requires !failed
      modifies this`doneEmitted, this`failed, this`out
      ensures View() == Process(codec, old(View()), line)
    {
      hide Trim, TrimStart, DropCr, Sanitize, Truncate;
      var trimmed := Trim(DropCr(line));
      if |trimmed| < 5 || trimmed[..5] != "data:" { return; }
      if doneEmitted { return; }
      var data := TrimStart(trimmed[5..]);
      if data == "[DONE]" {
        out, doneEmitted := out + ["[DONE]"], true;
        return;
      }
      match codec.parse(data)
      case NotJson =>
      case Null => failed := true;
      case Envelope(status, body) =>
        if status != 200 {
          out := out + [ErrorChunk(codec, status, Truncate(body, 200))];
          out := out + ["[DONE]"];
          doneEmitted := true;
          return;
        }
        if body == "" { return; }
        if body == "[DONE]" {
          out, doneEmitted := out + ["[DONE]"], true;
          return;
        }
        out := out + [Sanitize(body)];
    }

    /** One piece of decoded text. */
    method TransformPiece(piece: string)
      requires !failed
      modifies this
      ensures var p := Transform(codec, Pipe(old(buffer), old(View())), piece);
              View() == p.state && (!failed ==> buffer == p.buffer)
    {
      hide Process, Lines, Rest, ProcessAll;
      ghost var start := View();
      buffer := buffer + piece;
      ghost var all, done := buffer, [];
      assert [] + Lines(all) == Lines(all);
      NoLines(codec, start);
      var nl := IndexOfLf(buffer);
      while nl.Some?
        invariant !failed && nl == IndexOfLf(buffer)
        invariant Lines(all) == done + Lines(buffer) && Rest(all) == Rest(buffer)
        invariant View() == ProcessAll(codec, start, done)
        decreases |buffer|
      {
        var line := buffer[..nl.value];
        NextLine(codec, start, all, done, buffer, nl.value);
        buffer := buffer[nl.value + 1..];
        ProcessLine(line);
        done := done + [line];
        if failed {
          StaysFailed(codec, View(), Lines(buffer));
          ProcessConcat(codec, start, done, Lines(buffer));
          return;
        }
        nl := IndexOfLf(buffer);
      }
      LastLine(buffer);
      assert done + [] == done;
    }

    method FlushRest(tail: string)
      requires !failed
      modifies this
      ensures View() == Flush(codec, Pipe(old(buffer), old(View())), tail)
    {
      buffer := buffer + tail;
      if |buffer| > 0 {
        ProcessLine(buffer);
        if failed { return; }
        buffer := "";
      } else {
        EmptyLine(codec, View());
      }
      if !doneEmitted { out, doneEmitted := out + ["[DONE]"], true; }
    }
  }

  lemma {:induction false} StaysFailed(c: Codec, s: State, lines: seq<string>)
    requires s.failed
    ensures ProcessAll(c, s, lines) == s
  {
    if lines != [] { StaysFailed(c, s, lines[..|lines| - 1]); }
  }

  lemma EmptyLine(c: Codec, s: State)
    ensures Process(c, s, "") == s
  {
  }
}
