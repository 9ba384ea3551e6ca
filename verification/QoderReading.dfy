/** What the Qoder executor reads from its upstream (open-sse/executors/qoder.js): which lines carry a payload,
    and what comes of each kind of payload. */
module QoderReading {
  import opened Basics
  import opened Text
  import opened Qoder

  // ---------------------------------------------------------------- lines

  predicate IsBlank(s: string) { forall i :: 0 <= i < |s| ==> IsSpace(s[i]) }

  /** A text with no white space at its ends. */
  predicate IsTrimmed(s: string) { s != "" && !IsSpace(s[0]) && !IsSpace(s[|s| - 1]) }

  /** A `data:` field, with white space in front of it or not. */
  predicate IsField(line: string) {
    exists n :: 0 <= n <= |line| - 5 && IsBlank(line[..n]) && line[n..n + 5] == "data:"
  }

  /** The line that carries a text: white space may stand around the field and behind its colon. */
  function Carrying(before: string, gap: string, p: string, behind: string): string {
    before + ("data:" + (gap + (p + behind)))
  }

  lemma {:induction false} TrimStartOf(blank: string, s: string)
    requires IsBlank(blank) && s != "" && !IsSpace(s[0])
    ensures TrimStart(blank + s) == s
  {
    if blank == "" {
      assert blank + s == s;
    } else {
      assert (blank + s)[0] == blank[0] && (blank + s)[1..] == blank[1..] + s;
      TrimStartOf(blank[1..], s);
    }
  }

  lemma {:induction false} TrimEndOf(s: string, blank: string)
    requires IsBlank(blank) && s != "" && !IsSpace(s[|s| - 1])
    ensures TrimEnd(s + blank) == s
  {
    if blank == "" {
      assert s + blank == s;
    } else {
      var n := |blank| - 1;
      assert (s + blank)[|s| + n] == blank[n] && (s + blank)[..|s| + n] == s + blank[..n];
      TrimEndOf(s, blank[..n]);
    }
  }

  lemma DropCrOf(s: string, blank: string) returns (less: string)
    requires IsBlank(blank) && s != "" && !IsSpace(s[|s| - 1])
    ensures IsBlank(less) && DropCr(s + blank) == s + less
  {
    var line := s + blank;
    less := if blank != "" && blank[|blank| - 1] == '\r' then blank[..|blank| - 1] else blank;
    if blank == "" {
      assert line[|line| - 1] == s[|s| - 1];
    } else {
      assert line[|line| - 1] == blank[|blank| - 1] && line[..|line| - 1] == s + blank[..|blank| - 1];
    }
  }

  lemma CarriesPayload(before: string, gap: string, p: string, behind: string)
    requires IsBlank(before) && IsBlank(gap) && IsBlank(behind) && IsTrimmed(p)
    ensures PayloadOf(Carrying(before, gap, p, behind)) == Some(p)
  {
    hide TrimStart, TrimEnd, DropCr, Carrying;
    Regroup(before, gap, p, behind);
    FieldEnds(gap, p);
    TrimField(before, "data:" + (gap + p), behind);
    TrimStartOf(gap, p);
  }

  lemma FieldEnds(gap: string, p: string)
    requires IsTrimmed(p)
    ensures var field := "data:" + (gap + p); IsTrimmed(field) && field[..5] == "data:" && field[5..] == gap + p
  {
    var field := "data:" + (gap + p);
    assert field[|field| - 1] == p[|p| - 1] && field[0] == 'd';
  }

  lemma TrimField(before: string, field: string, behind: string)
    requires IsBlank(before) && IsBlank(behind) && IsTrimmed(field)
    ensures Trim(DropCr(before + field + behind)) == field
  {
    hide TrimStart, TrimEnd, DropCr;
    var begun := before + field;
    assert begun[|begun| - 1] == field[|field| - 1];
    var less := DropCrOf(begun, behind);
    Assoc(before, field, less);
    assert (field + less)[0] == field[0];
    TrimStartOf(before, field + less);
    TrimEndOf(field, less);
  }

  lemma Regroup(before: string, gap: string, p: string, behind: string)
    ensures Carrying(before, gap, p, behind) == before + ("data:" + (gap + p)) + behind
  {
    Assoc(gap, p, behind);
    Assoc("data:", gap + p, behind);
    Assoc(before, "data:" + (gap + p), behind);
  }

  lemma OnlyFields(line: string)
    requires PayloadOf(line).Some?
    ensures IsField(line)
  {
    hide TrimStart, TrimEnd, Trim, DropCr, IsBlank, IsField;
    var less := DropCr(line);
    var l, n := |less|, |less| - |TrimStart(less)|;
    LessIs(line);
    TrimmedIs(less);
    Slices(line, l, n);
    FieldAt(line, n);
  }

  lemma LessIs(line: string)
    ensures |DropCr(line)| <= |line| && DropCr(line) == line[..|DropCr(line)|]
  {
  }

  lemma TrimmedIs(s: string)
    requires |Trim(s)| >= 5
    ensures var n := |s| - |TrimStart(s)|; 0 <= n <= |s| - 5 && IsBlank(s[..n]) && Trim(s)[..5] == s[n..][..5]
  {
    hide TrimStart, TrimEnd, IsSpace;
    var begun := TrimStart(s);
    forall i: nat | i < |s| - |begun| ensures IsSpace(s[i]) { TrimStartDrops(s, i); }
    assert Trim(s) == begun[..|Trim(s)|];
    assert begun[..|Trim(s)|][..5] == begun[..5];
  }

  lemma FieldAt(line: string, n: nat)
    requires n + 5 <= |line| && IsBlank(line[..n]) && line[n..n + 5] == "data:"
    ensures IsField(line)
  {
    hide IsBlank;
  }

  lemma Slices(line: string, l: nat, n: nat)
    requires n + 5 <= l <= |line|
    ensures line[..l][..n] == line[..n] && line[..l][n..][..5] == line[n..n + 5]
  {
  }

  /** Any other line changes nothing. */
  lemma OtherLine(c: Codec, s: State, line: string)
    requires !IsField(line)
    ensures Process(c, s, line) == s
  {
    if PayloadOf(line).Some? { OnlyFields(line); }
  }

  /** So lines that are no fields may stand anywhere. */
  lemma {:induction false} OtherLines(c: Codec, s: State, lines: seq<string>)
    ensures ProcessAll(c, s, lines) == ProcessAll(c, s, Filter(line => IsField(line), lines))
  {
    if lines != [] {
      hide Process, IsField;
      var init, line := lines[..|lines| - 1], lines[|lines| - 1];
      OtherLines(c, s, init);
      var kept := Filter(l => IsField(l), init);
      if IsField(line) {
        assert (kept + [line])[..|kept|] == kept;
      } else {
        OtherLine(c, ProcessAll(c, s, init), line);
        assert kept + [] == kept;
      }
    }
  }

  // ---------------------------------------------------------------- payloads

  /** The message of an error, cut to 200 characters. */
  function Short(body: string): string { if |body| <= 200 then body else body[..200] + "..." }

  /** What comes of a payload, while the stream is open: the end mark, bare or in an envelope, ends it; another
      status is reported and ends it; a body is forwarded; an empty body, and what is no JSON, is skipped; null
      fails. */
  lemma PayloadMeans(c: Codec, s: State, before: string, gap: string, p: string, behind: string)
    requires IsBlank(before) && IsBlank(gap) && IsBlank(behind) && IsTrimmed(p)
    requires !s.done && !s.failed
    ensures Process(c, s, Carrying(before, gap, p, behind)) ==
              if p == "[DONE]" || c.parse(p) == Envelope(200, "[DONE]") then s.(done := true, out := s.out + ["[DONE]"])
              else
                match c.parse(p)
                case NotJson => s
                case Null => s.(failed := true)
                case Envelope(status, body) =>
                  if status != 200
                  then s.(done := true, out := s.out + [ErrorChunk(c, status, Short(body)), "[DONE]"])
                  else if body == "" then s
                  else s.(out := s.out + [Sanitize(body)])
  {
    CarriesPayload(before, gap, p, behind);
    hide PayloadOf, Sanitize;
  }

  /** Nothing is sent behind the end mark or behind a failure. */
  lemma EndedStays(c: Codec, s: State, line: string)
    requires s.done || s.failed
    ensures Process(c, s, line) == s
  {
    hide PayloadOf;
  }

  lemma {:induction false} AllEnded(c: Codec, s: State, lines: seq<string>)
    requires s.done || s.failed
    ensures ProcessAll(c, s, lines) == s
  {
    if lines != [] {
      hide Process;
      AllEnded(c, s, lines[..|lines| - 1]);
      EndedStays(c, s, lines[|lines| - 1]);
    }
  }

  // ---------------------------------------------------------------- whole responses

  /** A payload whose body is forwarded. */
  ghost predicate Forwards(c: Codec, p: string, body: string) {
    && IsTrimmed(p) && '\n' !in p && p != "[DONE]"
    && c.parse(p) == Envelope(200, body) && body != "" && body != "[DONE]"
  }

  /** Each payload on its line, with a blank behind the colon or not, and an empty line, with a carriage return
      at their ends or not. */
  function Framed(ps: seq<string>, blank: bool, cr: bool): string {
    if ps == [] then ""
    else
      var end := if cr then "\r" else "";
      Carrying("", if blank then " " else "", ps[0], end) + "\n" + (end + "\n" + Framed(ps[1..], blank, cr))
  }

  lemma {:induction false} FramedIsWire(ps: seq<string>)
    ensures Framed(ps, true, false) == Wire(ps)
  {
    if ps != [] {
      FramedIsWire(ps[1..]);
      assert ps[0] + "" == ps[0] && "data:" + (" " + ps[0]) == "data: " + ps[0];
      assert "" + ("data: " + ps[0]) == "data: " + ps[0];
    }
  }

  /** The state behind the lines that forward these bodies, wherever they are followed by more. */
  lemma {:induction false} FramedLines(c: Codec, s: State, ps: seq<string>, bodies: seq<string>, blank: bool, cr: bool,
                                       more: string)
    requires |ps| == |bodies| && forall i :: 0 <= i < |ps| ==> Forwards(c, ps[i], bodies[i])
    requires !s.done && !s.failed
    ensures var t := s.(out := s.out + SanitizeAll(bodies));
            && ProcessAll(c, s, Lines(Framed(ps, blank, cr) + more)) == ProcessAll(c, t, Lines(more))
            && Rest(Framed(ps, blank, cr) + more) == Rest(more)
    decreases |ps|
  {
    hide Lines, Rest, Process, ProcessAll, Sanitize, Forwards;
    if ps == [] {
      assert Framed(ps, blank, cr) + more == more && s.out + SanitizeAll(bodies) == s.out;
    } else {
      FramedFirst(c, s, ps, bodies[0], blank, cr, more);
      var u := s.(out := s.out + [Sanitize(bodies[0])]);
      FramedLines(c, u, ps[1..], bodies[1..], blank, cr, more);
      assert [Sanitize(bodies[0])] + SanitizeAll(bodies[1..]) == SanitizeAll(bodies);
      Assoc(s.out, [Sanitize(bodies[0])], SanitizeAll(bodies[1..]));
    }
  }

  lemma FramedFirst(c: Codec, s: State, ps: seq<string>, body: string, blank: bool, cr: bool, more: string)
    requires ps != [] && Forwards(c, ps[0], body) && !s.done && !s.failed
    ensures var behind := Framed(ps[1..], blank, cr) + more;
            && ProcessAll(c, s, Lines(Framed(ps, blank, cr) + more)) ==
                 ProcessAll(c, s.(out := s.out + [Sanitize(body)]), Lines(behind))
            && Rest(Framed(ps, blank, cr) + more) == Rest(behind)
  {
    hide Lines, Rest, Process, ProcessAll, Sanitize, Carrying;
    var end, gap := if cr then "\r" else "", if blank then " " else "";
    var line, behind := Carrying("", gap, ps[0], end), Framed(ps[1..], blank, cr) + more;
    FramedUnfold(ps, blank, cr, more);
    OneLine(gap, ps[0], end);
    LineFirst(line, end + "\n" + behind);
    LineFirst(end, behind);
    PayloadMeans(c, s, "", gap, ps[0], end);
    var t := s.(out := s.out + [Sanitize(body)]);
    EmptyLine(c, t, end);
    TwoLines(c, s, line, end, Lines(behind));
  }

  lemma FramedUnfold(ps: seq<string>, blank: bool, cr: bool, more: string)
    requires ps != []
    ensures var end := if cr then "\r" else "";
            var line := Carrying("", if blank then " " else "", ps[0], end);
            Framed(ps, blank, cr) + more == line + "\n" + (end + "\n" + (Framed(ps[1..], blank, cr) + more))
  {
    hide Carrying;
    var end, rest := if cr then "\r" else "", Framed(ps[1..], blank, cr);
    var line := Carrying("", if blank then " " else "", ps[0], end);
    Assoc(line + "\n", end + "\n" + rest, more);
    Assoc(end + "\n", rest, more);
  }

  lemma OneLine(gap: string, p: string, end: string)
    requires (gap == "" || gap == " ") && (end == "" || end == "\r") && '\n' !in p
    ensures '\n' !in Carrying("", gap, p, end) && '\n' !in end && IsBlank("") && IsBlank(gap) && IsBlank(end)
  {
  }

  lemma EmptyLine(c: Codec, s: State, end: string)
    requires end == "" || end == "\r"
    ensures Process(c, s, end) == s
  {
    OtherLine(c, s, end);
  }

  lemma TwoLines(c: Codec, s: State, a: string, b: string, lines: seq<string>)
    ensures ProcessAll(c, s, [a] + ([b] + lines)) == ProcessAll(c, Process(c, Process(c, s, a), b), lines)
  {
    ProcessConcat(c, s, [a], [b] + lines);
    ProcessConcat(c, Process(c, s, a), [b], lines);
    OneProcessed(c, s, a);
    OneProcessed(c, Process(c, s, a), b);
  }

  lemma OneProcessed(c: Codec, s: State, line: string)
    ensures ProcessAll(c, s, [line]) == Process(c, s, line)
  {
    hide Process;
    assert [line][..0] == [];
  }

  /** A response whose payloads are all forwarded: the client gets the bodies, sanitized, in order, and the end
      mark. */
  lemma BodiesForwarded(c: Codec, ps: seq<string>, bodies: seq<string>, blank: bool, cr: bool)
    requires |ps| == |bodies| && forall i :: 0 <= i < |ps| ==> Forwards(c, ps[i], bodies[i])
    ensures Unwrap(c, Framed(ps, blank, cr)) == State(true, false, SanitizeAll(bodies) + ["[DONE]"])
  {
    hide ProcessAll, SanitizeAll, Process, Forwards;
    FramedLines(c, START, ps, bodies, blank, cr, "");
    assert Framed(ps, blank, cr) + "" == Framed(ps, blank, cr) && [] + SanitizeAll(bodies) == SanitizeAll(bodies);
    assert Lines("") == [] && Rest("") == "";
    NoLines(c, START.(out := START.out + SanitizeAll(bodies)));
    EmptyLine(c, State(false, false, SanitizeAll(bodies)), "");
  }

  /** On the wire as it is usually written. */
  lemma WireForwarded(c: Codec, ps: seq<string>, bodies: seq<string>)
    requires |ps| == |bodies| && forall i :: 0 <= i < |ps| ==> Forwards(c, ps[i], bodies[i])
    ensures Unwrap(c, Wire(ps)).out == SanitizeAll(bodies) + ["[DONE]"]
  {
    hide Unwrap, SanitizeAll, Forwards;
    BodiesForwarded(c, ps, bodies, true, false);
    FramedIsWire(ps);
  }

  /** An error behind such payloads is reported, and the end mark follows; whatever comes behind it is ignored. */
  lemma ErrorEnds(c: Codec, ps: seq<string>, bodies: seq<string>, blank: bool, cr: bool, p: string, status: int,
                  body: string, more: string)
    requires |ps| == |bodies| && forall i :: 0 <= i < |ps| ==> Forwards(c, ps[i], bodies[i])
    requires IsTrimmed(p) && '\n' !in p && p != "[DONE]" && c.parse(p) == Envelope(status, body) && status != 200
    ensures Unwrap(c, Framed(ps, blank, cr) + ("data: " + p + "\n" + more)) ==
              State(true, false, SanitizeAll(bodies) + [ErrorChunk(c, status, Short(body)), "[DONE]"])
  {
    hide ProcessAll, SanitizeAll, Process, Forwards, Lines, Rest, Carrying;
    var line := "data: " + p;
    var tail := line + "\n" + more;
    FramedLines(c, START, ps, bodies, blank, cr, tail);
    assert [] + SanitizeAll(bodies) == SanitizeAll(bodies);
    PlainLine(p);
    LineFirst(line, more);
    var s := State(false, false, SanitizeAll(bodies));
    PayloadMeans(c, s, "", " ", p, "");
    OneLine(" ", p, "");
    ProcessConcat(c, s, [line], Lines(more));
    OneProcessed(c, s, line);
    AllEnded(c, Process(c, s, line), Lines(more));
    EndedStays(c, Process(c, s, line), Rest(more));
  }

  lemma PlainLine(p: string)
    ensures "data: " + p == Carrying("", " ", p, "")
  {
    assert p + "" == p && "data:" + (" " + p) == "data: " + p && "" + ("data: " + p) == "data: " + p;
  }

  // ---------------------------------------------------------------- sanitizing

  function JoinedLines(lines: seq<string>): string {
    if lines == [] then "" else DropCr(lines[0]) + JoinedLines(lines[1..])
  }

  /** Sanitizing joins the lines of a body, each without the carriage return at its end. */
  lemma {:induction false} SanitizeJoins(s: string)
    ensures Sanitize(s) == JoinedLines(Lines(s)) + Rest(s)
    decreases |s|
  {
    match IndexOfLf(s)
    case None => NoLineFeeds(s);
    case Some(i) =>
      hide Sanitize, Lines, Rest;
      SanitizeLine(s, i);
      SanitizeJoins(s[i + 1..]);
  }

  lemma {:induction false} NoLineFeeds(s: string)
    requires '\n' !in s
    ensures Sanitize(s) == s && Lines(s) == [] && Rest(s) == s
  {
    if s != "" {
      NoLineFeeds(s[1..]);
      assert s == [s[0]] + s[1..];
    }
  }

  lemma SanitizeLine(s: string, i: nat)
    requires IndexOfLf(s) == Some(i)
    ensures Sanitize(s) == DropCr(s[..i]) + Sanitize(s[i + 1..])
    ensures JoinedLines(Lines(s)) + Rest(s) == DropCr(s[..i]) + (JoinedLines(Lines(s[i + 1..])) + Rest(s[i + 1..]))
  {
    assert s == s[..i] + ("\n" + s[i + 1..]);
    SanitizeTo(s[..i], s[i + 1..]);
    hide Sanitize, DropCr;
    assert Lines(s)[1..] == Lines(s[i + 1..]);
    hide Lines, Rest;
    Assoc(DropCr(s[..i]), JoinedLines(Lines(s[i + 1..])), Rest(s[i + 1..]));
  }

  lemma {:induction false} SanitizeTo(a: string, rest: string)
    requires '\n' !in a
    ensures Sanitize(a + ("\n" + rest)) == DropCr(a) + Sanitize(rest)
  {
    var s := a + ("\n" + rest);
    if a == "" {
      assert s == "\n" + rest && s[1..] == rest;
    } else if a == "\r" {
      assert s[0] == '\r' && s[1] == '\n' && s[2..] == rest;
    } else {
      assert s[0] == a[0] && s[1..] == a[1..] + ("\n" + rest);
      if |a| > 1 { assert s[1] == a[1]; }
      SanitizeTo(a[1..], rest);
      DropCrLater(a);
      hide DropCr;
      Assoc([a[0]], DropCr(a[1..]), Sanitize(rest));
    }
  }

  lemma DropCrLater(a: string)
    requires a != "" && a != "\r"
    ensures DropCr(a) == [a[0]] + DropCr(a[1..])
  {
    if |a| == 1 { assert a == [a[0]]; }
  }
}
