/** Which text a client should see of a Kiro answer, and when it does (open-sse/executors/kiro.js).

    The reference works on the whole text: every thinking block goes, and one line feed behind it. The
    program works on the pieces in which the text arrives, and looks for one block per piece. */
module KiroBlocks {
  import opened Basics
  import opened Text
  import opened KiroThinking

  // ---------------------------------------------------------------- the reference

  /** The text without its thinking blocks. A block goes from an opening tag to the next closing tag, or
      to the end of the text. `inside` says whether the text begins within a block. */
  function Clean(inside: bool, s: string): string
    decreases |s|
  {
    if inside then
      match IndexFrom(s, CLOSE, 0)
      case None => ""
      case Some(j) => Clean(false, DropNewline(s[j + |CLOSE|..]))
    else
      match IndexFrom(s, OPEN, 0)
      case None => s
      case Some(i) => s[..i] + Clean(true, s[i + |OPEN|..])
  }

  /** Whether the text ends within a block. */
  function Inside(inside: bool, s: string): bool
    decreases |s|
  {
    if inside then
      match IndexFrom(s, CLOSE, 0)
      case None => true
      case Some(j) => Inside(false, DropNewline(s[j + |CLOSE|..]))
    else
      match IndexFrom(s, OPEN, 0)
      case None => false
      case Some(i) => Inside(true, s[i + |OPEN|..])
  }

  /** One step of the reference: there is no tag, or there is a first one. */
  lemma NoneFound(inside: bool, s: string)
    requires IndexFrom(s, if inside then CLOSE else OPEN, 0).None?
    ensures Clean(inside, s) == (if inside then "" else s) && Inside(inside, s) == inside
  {
    hide IndexFrom;
  }

  lemma CloseFound(s: string, j: nat)
    requires IndexFrom(s, CLOSE, 0) == Some(j)
    ensures j + |CLOSE| <= |s|
    ensures Clean(true, s) == Clean(false, DropNewline(s[j + |CLOSE|..]))
    ensures Inside(true, s) == Inside(false, DropNewline(s[j + |CLOSE|..]))
  {
    hide IndexFrom, OccursAt, DropNewline;
    FitsIn(s, CLOSE, j);
  }

  lemma OpenFound(s: string, i: nat)
    requires IndexFrom(s, OPEN, 0) == Some(i)
    ensures i + |OPEN| <= |s|
    ensures Clean(false, s) == s[..i] + Clean(true, s[i + |OPEN|..])
            && Inside(false, s) == Inside(true, s[i + |OPEN|..])
  {
    hide IndexFrom, OccursAt;
    FitsIn(s, OPEN, i);
  }

  lemma {:induction false} CleanShorter(inside: bool, s: string)
    ensures |Clean(inside, s)| <= |s|
    ensures !inside && Includes(s, OPEN) ==> |Clean(inside, s)| < |s|
    decreases |s|
  {
    if inside {
      match IndexFrom(s, CLOSE, 0)
      case None =>
      case Some(j) => CleanShorter(false, DropNewline(s[j + |CLOSE|..]));
    } else {
      match IndexFrom(s, OPEN, 0)
      case None =>
      case Some(i) => CleanShorter(true, s[i + |OPEN|..]);
    }
  }

  // ---------------------------------------------------------------- cutting a text

  /** No occurrence of the tag begins in `a` and ends in `b`, and none lies in `a`. */
  ghost predicate NoneBegins(a: string, b: string, tag: string) {
    forall i :: 0 <= i < |a| ==> !OccursAt(a + b, tag, i)
  }

  /** The cut between `a` and `b` splits no tag that matters there, and no closing tag from the line feed
      that goes with it. */
  ghost predicate CleanCut(inside: bool, a: string, b: string)
    decreases |a|
  {
    if inside then
      match IndexFrom(a, CLOSE, 0)
      case None => NoneBegins(a, b, CLOSE)
      case Some(j) =>
        var r := a[j + |CLOSE|..];
        if r == "" then b == "" || b[0] != '\n' else CleanCut(false, DropNewline(r), b)
    else
      match IndexFrom(a, OPEN, 0)
      case None => NoneBegins(a, b, OPEN)
      case Some(i) => CleanCut(true, a[i + |OPEN|..], b)
  }

  lemma OccursLater(a: string, b: string, tag: string, i: nat)
    ensures OccursAt(a + b, tag, |a| + i) <==> OccursAt(b, tag, i)
  {
    if i + |tag| <= |b| { assert (a + b)[|a| + i..|a| + i + |tag|] == b[i..i + |tag|]; }
  }

  lemma IndexLater(a: string, b: string, tag: string)
    requires NoneBegins(a, b, tag)
    ensures IndexFrom(a + b, tag, 0) == match IndexFrom(b, tag, 0) case None => None case Some(j) => Some(|a| + j)
  {
    hide OccursAt;
    match IndexFrom(b, tag, 0)
    case Some(j) =>
      OccursLater(a, b, tag, j);
      forall k | 0 <= k < |a| + j ensures !OccursAt(a + b, tag, k) {
        if k >= |a| { OccursLater(a, b, tag, k - |a|); }
      }
      FoundAt(a + b, tag, |a| + j);
    case None =>
      forall k: nat ensures !OccursAt(a + b, tag, k) {
        if k >= |a| { OccursLater(a, b, tag, k - |a|); }
      }
  }

  lemma IndexStays(a: string, b: string, tag: string)
    requires IndexFrom(a, tag, 0).Some?
    ensures IndexFrom(a + b, tag, 0) == IndexFrom(a, tag, 0)
  {
    var i := IndexFrom(a, tag, 0).value;
    assert (a + b)[i..i + |tag|] == a[i..i + |tag|];
    forall k | 0 <= k < i ensures !OccursAt(a + b, tag, k) {
      assert !OccursAt(a, tag, k);
      if k + |tag| <= |a| { assert (a + b)[k..k + |tag|] == a[k..k + |tag|]; }
    }
    FoundAt(a + b, tag, i);
  }

  /** What the reference does with the text behind a tag it has found. */
  lemma CloseStep(a: string, b: string, j: nat)
    requires IndexFrom(a, CLOSE, 0) == Some(j)
    ensures j + |CLOSE| <= |a|
    ensures var r := a[j + |CLOSE|..];
            && Clean(true, a + b) == Clean(false, DropNewline(r + b))
            && Inside(true, a + b) == Inside(false, DropNewline(r + b))
            && (r != "" ==> DropNewline(r + b) == DropNewline(r) + b)
            && (r == "" ==> r + b == b)
  {
    hide IndexFrom, Clean, Inside;
    CloseFound(a, j);
    IndexStays(a, b, CLOSE);
    CloseFound(a + b, j);
    DropConcat(a, b, j + |CLOSE|);
  }

  lemma OpenStep(a: string, b: string, i: nat)
    requires IndexFrom(a, OPEN, 0) == Some(i)
    ensures i + |OPEN| <= |a|
    ensures var r := a[i + |OPEN|..];
            Clean(false, a + b) == a[..i] + Clean(true, r + b) && Inside(false, a + b) == Inside(true, r + b)
  {
    hide IndexFrom, Clean, Inside;
    OpenFound(a, i);
    IndexStays(a, b, OPEN);
    OpenFound(a + b, i);
    DropConcat(a, b, i + |OPEN|);
    assert (a + b)[..i] == a[..i];
  }

  /** The reference can be read piece by piece, as long as the cuts are clean. */
  lemma {:induction false} CleanConcat(inside: bool, a: string, b: string)
    requires CleanCut(inside, a, b)
    ensures Clean(inside, a + b) == Clean(inside, a) + Clean(Inside(inside, a), b)
    ensures Inside(inside, a + b) == Inside(Inside(inside, a), b)
    decreases |a|
  {
    hide IndexFrom, NoneBegins, Clean, Inside;
    if IndexFrom(a, if inside then CLOSE else OPEN, 0).None? {
      CleanLater(inside, a, b);
    } else if inside {
      var j := IndexFrom(a, CLOSE, 0).value;
      CloseFound(a, j);
      CloseStep(a, b, j);
      var r := a[j + |CLOSE|..];
      if r == "" { EmptyText(); } else { CleanConcat(false, DropNewline(r), b); }
    } else {
      var i := IndexFrom(a, OPEN, 0).value;
      OpenFound(a, i);
      OpenStep(a, b, i);
      var r := a[i + |OPEN|..];
      CleanConcat(true, r, b);
      Assoc(a[..i], Clean(true, r), Clean(Inside(true, r), b));
    }
  }

  lemma CleanLater(inside: bool, a: string, b: string)
    requires IndexFrom(a, if inside then CLOSE else OPEN, 0).None?
    requires NoneBegins(a, b, if inside then CLOSE else OPEN)
    ensures Clean(inside, a + b) == Clean(inside, a) + Clean(Inside(inside, a), b)
    ensures Inside(inside, a + b) == Inside(Inside(inside, a), b)
  {
    hide IndexFrom, NoneBegins, Clean, Inside;
    NoneFound(inside, a);
    var tag := if inside then CLOSE else OPEN;
    IndexLater(a, b, tag);
    match IndexFrom(b, tag, 0)
    case None =>
      NoneFound(inside, b);
      NoneFound(inside, a + b);
      assert "" + "" == "";
    case Some(k) => if inside { CloseLater(a, b, k); } else { OpenLater(a, b, k); }
  }

  lemma CloseLater(a: string, b: string, j: nat)
    requires IndexFrom(b, CLOSE, 0) == Some(j) && IndexFrom(a + b, CLOSE, 0) == Some(|a| + j)
    ensures Clean(true, a + b) == "" + Clean(true, b) && Inside(true, a + b) == Inside(true, b)
  {
    hide IndexFrom, Clean, Inside;
    CloseFound(b, j);
    CloseFound(a + b, |a| + j);
    DropLater(a, b, j + |CLOSE|);
    assert "" + Clean(true, b) == Clean(true, b);
  }

  lemma OpenLater(a: string, b: string, i: nat)
    requires IndexFrom(b, OPEN, 0) == Some(i) && IndexFrom(a + b, OPEN, 0) == Some(|a| + i)
    ensures Clean(false, a + b) == a + Clean(false, b) && Inside(false, a + b) == Inside(false, b)
  {
    hide IndexFrom, Clean, Inside;
    OpenFound(b, i);
    OpenFound(a + b, |a| + i);
    DropLater(a, b, i + |OPEN|);
    assert (a + b)[..|a| + i] == a + b[..i];
    Assoc(a, b[..i], Clean(true, b[i + |OPEN|..]));
  }

  lemma DropLater(a: string, b: string, n: nat)
    requires n <= |b|
    ensures (a + b)[|a| + n..] == b[n..]
  {
  }

  lemma EmptyText()
    ensures Clean(false, "") == "" && !Inside(false, "") && Clean(true, "") == "" && Inside(true, "")
  {
    assert !OccursAt("", OPEN, 0) && !OccursAt("", CLOSE, 0);
  }

  // ---------------------------------------------------------------- one piece

  /** No opening tag stands behind a closing tag. */
  ghost predicate Tidy(p: string) {
    forall i: nat, j: nat :: OccursAt(p, OPEN, i) && OccursAt(p, CLOSE, j) ==> i < j
  }

  lemma InSuffix(p: string, tag: string, skip: nat, i: nat)
    requires skip <= i && OccursAt(p, tag, i)
    ensures Includes(p[skip..], tag)
  {
    assert p[skip..][i - skip..i - skip + |tag|] == p[i..i + |tag|];
    assert OccursAt(p[skip..], tag, i - skip);
  }

  lemma FromSuffix(p: string, tag: string, skip: nat)
    requires skip <= |p| && Includes(p[skip..], tag)
    ensures OccursAt(p, tag, skip + IndexFrom(p[skip..], tag, 0).value)
  {
    var i := IndexFrom(p[skip..], tag, 0).value;
    assert p[skip..][i..i + |tag|] == p[skip + i..skip + i + |tag|];
  }

  /** What is left behind the first closing tag has an opening tag exactly if the piece is not tidy. */
  lemma RestTidy(p: string)
    requires Includes(p, CLOSE)
    ensures Tidy(p) <==> !Includes(DropNewline(After(p, CLOSE)), OPEN)
  {
    hide OccursAt, IndexFrom;
    BothTags();
    var j := IndexFrom(p, CLOSE, 0).value;
    FitsIn(p, CLOSE, j);
    var left := DropNewline(After(p, CLOSE));
    var skip := |p| - |left|;
    assert left == p[skip..] && skip > j;
    if Includes(left, OPEN) {
      FromSuffix(p, OPEN, skip);
    } else {
      forall i: nat, k: nat | OccursAt(p, OPEN, i) && OccursAt(p, CLOSE, k) ensures i < k {
        OpenOutside(p, i, j);
        if i >= skip { InSuffix(p, OPEN, skip, i); }
      }
    }
  }

  lemma CharOf(p: string, tag: string, i: nat, k: nat)
    requires OccursAt(p, tag, i) && i <= k < i + |tag|
    ensures p[k] == tag[k - i]
  {
    assert p[i..i + |tag|][k - i] == p[k];
  }

  /** Two tags do not overlap. */
  lemma TagsApart(p: string, a: string, i: nat, b: string, j: nat)
    requires IsTag(a) && IsTag(b) && OccursAt(p, a, i) && OccursAt(p, b, j) && i < j
    ensures i + |a| <= j
  {
    CharOf(p, b, j, j);
    forall k | i < k < i + |a| ensures p[k] != '<' {
      CharOf(p, a, i, k);
    }
  }

  /** An opening tag lies before a closing tag or behind it and its line feed. */
  lemma OpenOutside(p: string, i: nat, j: nat)
    requires OccursAt(p, OPEN, i) && OccursAt(p, CLOSE, j)
    ensures i < j || i >= j + |CLOSE|
    ensures j + |CLOSE| < |p| && p[j + |CLOSE|] == '\n' ==> i != j + |CLOSE|
  {
    BothTags();
    CharOf(p, OPEN, i, i);
    CharOf(p, OPEN, i, i + 1);
    CharOf(p, CLOSE, j, j + 1);
    if j < i { TagsApart(p, CLOSE, j, OPEN, i); }
  }

  /** Behind an opening tag that comes first, the first closing tag is the same. */
  lemma CloseBehind(p: string, i: nat, j: nat)
    requires OccursAt(p, OPEN, i) && IndexFrom(p, CLOSE, 0) == Some(j) && i < j
    ensures i + |OPEN| <= j && IndexFrom(p[i + |OPEN|..], CLOSE, 0) == Some(j - i - |OPEN|)
  {
    BothTags();
    TagsApart(p, OPEN, i, CLOSE, j);
    var skip := i + |OPEN|;
    var rest := p[skip..];
    SubSlice(p, skip, |p|, j - skip, j - skip + |CLOSE|);
    forall m | 0 <= m < j - skip ensures !OccursAt(rest, CLOSE, m) {
      assert !OccursAt(p, CLOSE, skip + m);
      if m + |CLOSE| <= |rest| { SubSlice(p, skip, |p|, m, m + |CLOSE|); }
    }
    FoundAt(rest, CLOSE, j - skip);
  }

  /** A tidy piece with both tags, from outside a block: the block opens first. */
  lemma OpensFirst(p: string, i: nat, j: nat)
    requires IndexFrom(p, OPEN, 0) == Some(i) && IndexFrom(p, CLOSE, 0) == Some(j) && i < j
    ensures Clean(false, p) == p[..i] + Clean(false, DropNewline(After(p, CLOSE)))
    ensures Inside(false, p) == Inside(false, DropNewline(After(p, CLOSE)))
  {
    hide OccursAt, IndexFrom, Clean, Inside;
    OpenFound(p, i);
    CloseFound(p, j);
    CloseBehind(p, i, j);
    CloseFound(p[i + |OPEN|..], j - i - |OPEN|);
    SubSlice(p, i + |OPEN|, |p|, j - i - |OPEN| + |CLOSE|, |p| - i - |OPEN|);
  }

  /** One where it closes first: the program keeps the opening tag that the reference drops. */
  lemma ClosesFirst(p: string, i: nat, j: nat)
    requires IndexFrom(p, OPEN, 0) == Some(i) && IndexFrom(p, CLOSE, 0) == Some(j) && i > j
    ensures !Tidy(p) && |Clean(false, p)| < i + |DropNewline(After(p, CLOSE))|
  {
    hide IndexFrom, Clean, Inside;
    BothTags();
    OpenOutside(p, i, j);
    OpenFound(p, i);
    CleanShorter(true, p[i + |OPEN|..]);
  }

  lemma StepOutside(p: string)
    requires Includes(p, OPEN) && Includes(p, CLOSE)
    ensures Tidy(p) ==> Strip(false, p) == (Inside(false, p), Clean(false, p))
    ensures !Tidy(p) ==> |Strip(false, p).1| > |Clean(false, p)| && !Strip(false, p).0
  {
    hide OccursAt, IndexFrom, Clean, Inside, Tidy;
    var i, j := IndexFrom(p, OPEN, 0).value, IndexFrom(p, CLOSE, 0).value;
    FitsIn(p, OPEN, i);
    OpenOutside(p, i, j);
    RestTidy(p);
    var left := DropNewline(After(p, CLOSE));
    CleanShorter(false, left);
    if i < j {
      OpensFirst(p, i, j);
      if !Includes(left, OPEN) { NoneFound(false, left); }
    } else {
      BothTags();
      ClosesFirst(p, i, j);
    }
  }

  lemma StepInside(p: string)
    requires Includes(p, CLOSE)
    ensures Tidy(p) ==> Strip(true, p) == (Inside(true, p), Clean(true, p))
    ensures !Tidy(p) ==> |Strip(true, p).1| > |Clean(true, p)| && !Strip(true, p).0
  {
    hide OccursAt, IndexFrom, Clean, Inside, Tidy;
    RestTidy(p);
    CloseFound(p, IndexFrom(p, CLOSE, 0).value);
    var left := DropNewline(After(p, CLOSE));
    CleanShorter(false, left);
    if !Includes(left, OPEN) { NoneFound(false, left); }
  }

  /** A piece that lacks one of the tags is tidy, and no trouble. */
  lemma StepSimple(inside: bool, p: string)
    requires !Includes(p, CLOSE) || (!inside && !Includes(p, OPEN))
    ensures Tidy(p) && Strip(inside, p) == (Inside(inside, p), Clean(inside, p))
  {
    hide OccursAt, IndexFrom, Clean, Inside;
    if Includes(p, CLOSE) { NoTag(p, OPEN); } else { NoTag(p, CLOSE); }
    if !inside && Includes(p, OPEN) {
      NoCloseBehind(p);
      OpenFound(p, IndexFrom(p, OPEN, 0).value);
      NoneFound(true, After(p, OPEN));
      assert Before(p, OPEN) + "" == Before(p, OPEN);
    } else {
      NoneFound(inside, p);
    }
  }

  /** From the same state, the program keeps at least what the reference keeps, and the same exactly if
      the piece is tidy. */
  lemma StepExact(inside: bool, p: string)
    ensures Tidy(p) ==> Strip(inside, p) == (Inside(inside, p), Clean(inside, p))
    ensures !Tidy(p) ==> |Strip(inside, p).1| > |Clean(inside, p)| && !Strip(inside, p).0
  {
    hide Tidy, Strip, Clean, Inside, IndexFrom;
    if !Includes(p, CLOSE) || (!inside && !Includes(p, OPEN)) {
      StepSimple(inside, p);
    } else if inside {
      StepInside(p);
    } else {
      StepOutside(p);
    }
  }

  /** Even where the program has lost track of a block, it keeps at least what the reference keeps. */
  lemma StepLonger(c: bool, r: bool, p: string)
    requires c ==> r
    ensures |Strip(c, p).1| >= |Clean(r, p)|
    ensures Strip(c, p).0 ==> Inside(r, p)
  {
    hide IndexFrom, OccursAt, Clean, Inside, Tidy;
    if c == r {
      StepExact(c, p);
    } else {
      CleanShorter(r, p);
      if Includes(p, CLOSE) {
        CloseFound(p, IndexFrom(p, CLOSE, 0).value);
        CleanShorter(false, DropNewline(After(p, CLOSE)));
      } else {
        NoneFound(true, p);
      }
    }
  }

  lemma NoTag(p: string, tag: string)
    requires !Includes(p, tag)
    ensures forall i: nat :: !OccursAt(p, tag, i)
  {
  }

  lemma NoCloseBehind(p: string)
    requires !Includes(p, CLOSE) && Includes(p, OPEN)
    ensures !Includes(After(p, OPEN), CLOSE)
  {
    var rest := After(p, OPEN);
    var skip := |p| - |rest|;
    forall i: nat ensures !OccursAt(rest, CLOSE, i) {
      assert !OccursAt(p, CLOSE, skip + i);
      if skip + i + |CLOSE| <= |p| { assert rest[i..i + |CLOSE|] == p[skip + i..skip + i + |CLOSE|]; }
    }
  }

  // ---------------------------------------------------------------- any pieces

  /** No cut between the pieces splits a tag that matters, or a closing tag from its line feed. */
  ghost predicate CleanCuts(pieces: seq<string>) {
    forall n :: 0 <= n < |pieces| ==> CleanCut(false, Flatten(pieces[..n]), pieces[n])
  }

  ghost predicate AllTidy(pieces: seq<string>) { forall n :: 0 <= n < |pieces| ==> Tidy(pieces[n]) }

  lemma CutsSnoc(init: seq<string>, p: string)
    ensures CleanCuts(init + [p]) <==> CleanCuts(init) && CleanCut(false, Flatten(init), p)
    ensures AllTidy(init + [p]) <==> AllTidy(init) && Tidy(p)
    ensures Flatten(init + [p]) == Flatten(init) + p
  {
    hide CleanCut, Tidy;
    var pieces := init + [p];
    forall n | 0 <= n <= |init| ensures pieces[..n] == init[..n] {}
    assert pieces[..|init|] == init && pieces[|init|] == p;
    assert Flatten(pieces) == Flatten(init) + p;
    hide Flatten;
  }

  lemma {:induction false} PiecesRun(pieces: seq<string>)
    requires CleanCuts(pieces)
    ensures var (c, t) := StripAll(false, pieces);
            var text := Flatten(pieces);
            && (c ==> Inside(false, text))
            && (AllTidy(pieces) ==> c == Inside(false, text) && t == Clean(false, text))
            && (if AllTidy(pieces) then |t| == |Clean(false, text)| else |t| > |Clean(false, text)|)
  {
    hide CleanCut, Tidy, Strip, Clean, Inside;
    if pieces == [] {
      EmptyText();
      assert Flatten<char>([]) == "";
    } else {
      var init, p := pieces[..|pieces| - 1], pieces[|pieces| - 1];
      assert pieces == init + [p];
      CutsSnoc(init, p);
      PiecesRun(init);
      StripSnoc(false, init, p);
      CleanConcat(false, Flatten(init), p);
      var (c, t) := StripAll(false, init);
      StepExact(Inside(false, Flatten(init)), p);
      StepLonger(c, Inside(false, Flatten(init)), p);
      hide CleanCuts, AllTidy, Flatten, StripAll;
    }
  }

  /** Where the cuts between the pieces are clean, the client sees exactly the text without its blocks
      if and only if no piece has an opening tag behind a closing tag. */
  lemma BlocksDropped(pieces: seq<string>)
    requires CleanCuts(pieces)
    ensures StripAll(false, pieces).1 == Clean(false, Flatten(pieces)) <==> AllTidy(pieces)
  {
    PiecesRun(pieces);
  }

  /** A text that arrives in one piece has no cuts. */
  lemma OnePiece(p: string)
    ensures StripAll(false, [p]).1 == Clean(false, p) <==> Tidy(p)
  {
    CutsSnoc([], p);
    assert [] + [p] == [p];
    assert Flatten<char>([]) == "" && "" + p == p;
    assert IndexFrom("", OPEN, 0).None?;
    BlocksDropped([p]);
  }

  // ---------------------------------------------------------------- whatever comes next

  /** The text ends with the beginning of the tag. */
  ghost predicate EndsWithin(s: string, tag: string) {
    exists k :: 0 < k < |tag| && k <= |s| && s[|s| - k..] == tag[..k]
  }

  /** The text ends within a tag that would matter there, or right behind a block that a line feed may
      still belong to. */
  ghost predicate Pending(inside: bool, s: string)
    decreases |s|
  {
    if inside then
      match IndexFrom(s, CLOSE, 0)
      case None => EndsWithin(s, CLOSE)
      case Some(j) => s[j + |CLOSE|..] == "" || Pending(false, DropNewline(s[j + |CLOSE|..]))
    else
      match IndexFrom(s, OPEN, 0)
      case None => EndsWithin(s, OPEN)
      case Some(i) => Pending(true, s[i + |OPEN|..])
  }

  predicate IsPlain(x: string) { '<' !in x }

  lemma PlainStep(inside: bool, x: string)
    requires IsPlain(x)
    ensures Strip(inside, x) == (inside, if inside then "" else x)
    ensures Clean(inside, x) == (if inside then "" else x) && Inside(inside, x) == inside
  {
    hide Clean, Inside;
    NoneInPlain(x, OPEN);
    NoneInPlain(x, CLOSE);
    NoneFound(inside, x);
  }

  lemma NoneInPlain(x: string, tag: string)
    requires IsPlain(x) && (tag == OPEN || tag == CLOSE)
    ensures !Includes(x, tag)
  {
    BothTags();
    forall i: nat ensures !OccursAt(x, tag, i) {
      if OccursAt(x, tag, i) { CharOf(x, tag, i, i); }
    }
  }

  /** Behind a text that does not end within a tag, no tag begins in it. */
  lemma NotWithin(a: string, b: string, tag: string)
    requires !Includes(a, tag) && !EndsWithin(a, tag)
    ensures NoneBegins(a, b, tag)
  {
    forall i: nat | i < |a| ensures !OccursAt(a + b, tag, i) {
      var k := |a| - i;
      if i + |tag| <= |a| {
        assert (a + b)[i..i + |tag|] == a[i..i + |tag|];
        assert !OccursAt(a, tag, i);
      } else if i + |tag| <= |a + b| {
        assert (a + b)[i..i + |tag|][..k] == a[|a| - k..];
      }
    }
  }

  lemma {:induction false} NothingPending(inside: bool, a: string, b: string)
    requires !Pending(inside, a)
    ensures CleanCut(inside, a, b)
    decreases |a|
  {
    hide IndexFrom, EndsWithin, NoneBegins;
    if inside {
      match IndexFrom(a, CLOSE, 0)
      case None => NotWithin(a, b, CLOSE);
      case Some(j) => NothingPending(false, DropNewline(a[j + |CLOSE|..]), b);
    } else {
      match IndexFrom(a, OPEN, 0)
      case None => NotWithin(a, b, OPEN);
      case Some(i) => NothingPending(true, a[i + |OPEN|..], b);
    }
  }

  /** The tag that is begun at the end of a text is completed by its rest. */
  lemma Completes(head: string, tag: string, k: nat, more: string)
    requires IsTag(tag) && 0 < k < |tag| && !Includes(head + tag[..k], tag)
    ensures head + tag[..k] + (tag[k..] + more) == head + (tag + more)
    ensures IndexFrom(head + (tag + more), tag, 0) == Some(|head|)
    ensures (head + (tag + more))[|head| + |tag|..] == more && (head + (tag + more))[..|head|] == head
  {
    hide IndexFrom;
    assert tag == tag[..k] + tag[k..];
    Assoc(tag[..k], tag[k..], more);
    Assoc(head, tag[..k], tag[k..] + more);
    NotBefore(head, tag[..k], tag);
    FirstAfter(head, more, tag);
  }

  lemma NotBefore(a: string, b: string, tag: string)
    requires !Includes(a + b, tag)
    ensures !Includes(a, tag)
  {
    hide IndexFrom;
    if Includes(a, tag) { IndexStays(a, b, tag); }
  }

  /** Where something is pending, some plain text makes the difference. */
  lemma {:induction false} PendingMatters(inside: bool, s: string) returns (x: string)
    requires Pending(inside, s)
    ensures IsPlain(x) && Clean(inside, s + x) != Clean(inside, s) + Clean(Inside(inside, s), x)
    decreases |s|
  {
    hide IndexFrom, Clean, Inside, OccursAt;
    BothTags();
    if IndexFrom(s, if inside then CLOSE else OPEN, 0).None? {
      if inside { x := CloseCompletes(s); } else { x := OpenCompletes(s); }
    } else if inside {
      var j := IndexFrom(s, CLOSE, 0).value;
      CloseFound(s, j);
      var r := s[j + |CLOSE|..];
      if r == "" {
        x := "\n";
        CloseStep(s, x, j);
        assert DropNewline(r + x) == "" && DropNewline(r) == "";
        EmptyText();
        PlainStep(false, x);
        assert "" + x == x;
      } else {
        x := PendingMatters(false, DropNewline(r));
        CloseStep(s, x, j);
      }
    } else {
      var i := IndexFrom(s, OPEN, 0).value;
      OpenFound(s, i);
      var r := s[i + |OPEN|..];
      x := PendingMatters(true, r);
      OpenStep(s, x, i);
      Assoc(s[..i], Clean(true, r), Clean(Inside(true, r), x));
      if Clean(false, s + x) == Clean(false, s) + Clean(Inside(false, s), x) {
        Cancel(s[..i], Clean(true, r + x), Clean(true, r) + Clean(Inside(true, r), x));
      }
    }
  }

  lemma TailPlain(tag: string, k: nat, more: string)
    requires IsTag(tag) && 0 < k <= |tag| && IsPlain(more)
    ensures IsPlain(tag[k..] + more)
  {
  }

  lemma OpenCompleted(head: string, k: nat)
    requires 0 < k < |OPEN| && !Includes(head + OPEN[..k], OPEN)
    ensures Clean(false, head + OPEN[..k] + (OPEN[k..] + "")) == head
  {
    hide IndexFrom, OccursAt, Clean, Inside;
    BothTags();
    Completes(head, OPEN, k, "");
    OpenFound(head + (OPEN + ""), |head|);
    EmptyText();
    assert head + "" == head;
  }

  lemma CloseCompleted(head: string, k: nat)
    requires 0 < k < |CLOSE| && !Includes(head + CLOSE[..k], CLOSE)
    ensures Clean(true, head + CLOSE[..k] + (CLOSE[k..] + "y")) == "y"
  {
    hide IndexFrom, OccursAt, Clean, Inside;
    BothTags();
    Completes(head, CLOSE, k, "y");
    CloseFound(head + (CLOSE + "y"), |head|);
    PlainStep(false, "y");
  }

  lemma OpenCompletes(s: string) returns (x: string)
    requires IndexFrom(s, OPEN, 0).None? && EndsWithin(s, OPEN)
    ensures IsPlain(x) && Clean(false, s + x) != Clean(false, s) + Clean(Inside(false, s), x)
  {
    hide IndexFrom, OccursAt, Clean, Inside, IsPlain;
    BothTags();
    var k :| 0 < k < |OPEN| && k <= |s| && s[|s| - k..] == OPEN[..k];
    var head := s[..|s| - k];
    assert s == head + OPEN[..k];
    x := OPEN[k..] + "";
    EmptyIsPlain();
    TailPlain(OPEN, k, "");
    OpenCompleted(head, k);
    NoneFound(false, s);
    PlainStep(false, x);
  }

  lemma CloseCompletes(s: string) returns (x: string)
    requires IndexFrom(s, CLOSE, 0).None? && EndsWithin(s, CLOSE)
    ensures IsPlain(x) && Clean(true, s + x) != Clean(true, s) + Clean(Inside(true, s), x)
  {
    hide IndexFrom, OccursAt, Clean, Inside;
    BothTags();
    var k :| 0 < k < |CLOSE| && k <= |s| && s[|s| - k..] == CLOSE[..k];
    var head := s[..|s| - k];
    assert s == head + CLOSE[..k];
    TailPlain(CLOSE, k, "y");
    hide IsPlain;
    x := CLOSE[k..] + "y";
    CloseCompleted(head, k);
    NoneFound(true, s);
    PlainStep(true, x);
  }

  /** After these pieces, plain text is sent as the reference says. */
  ghost predicate Right(pieces: seq<string>, x: string) {
    StripAll(false, pieces + [x]).1 == Clean(false, Flatten(pieces) + x)
  }

  /** At every moment of the stream, whatever plain text comes next, all text sent is right. */
  ghost predicate AlwaysRight(pieces: seq<string>) {
    forall n, x :: 0 <= n <= |pieces| && IsPlain(x) ==> Right(pieces[..n], x)
  }

  /** No piece has an opening tag behind a closing tag, and none ends within a tag that matters or right
      behind a block. */
  ghost predicate AllSafe(pieces: seq<string>) { forall n :: 0 <= n < |pieces| ==> SafeAt(pieces, n) }

  ghost predicate SafeAt(pieces: seq<string>, n: nat)
    requires n < |pieces|
  {
    Tidy(pieces[n]) && !Pending(false, Flatten(pieces[..n + 1]))
  }

  lemma SafeSnoc(init: seq<string>, p: string)
    ensures AllSafe(init + [p]) <==> AllSafe(init) && Tidy(p) && !Pending(false, Flatten(init + [p]))
  {
    hide SafeAt;
    var pieces := init + [p];
    forall n | 0 <= n < |init| ensures SafeAt(pieces, n) <==> SafeAt(init, n) {
      SafeBefore(init, p, n);
    }
    SafeLast(init, p);
    if AllSafe(pieces) { assert SafeAt(pieces, |init|); }
  }

  lemma SafeBefore(init: seq<string>, p: string, n: nat)
    requires n < |init|
    ensures SafeAt(init + [p], n) <==> SafeAt(init, n)
  {
    hide Pending, Tidy, Flatten;
    assert (init + [p])[..n + 1] == init[..n + 1];
  }

  lemma SafeLast(init: seq<string>, p: string)
    ensures SafeAt(init + [p], |init|) <==> Tidy(p) && !Pending(false, Flatten(init + [p]))
  {
    hide Pending, Tidy, Flatten;
    assert (init + [p])[..|init| + 1] == init + [p];
  }

  lemma RightSnoc(init: seq<string>, p: string)
    ensures AlwaysRight(init + [p]) <==> AlwaysRight(init) && forall x :: IsPlain(x) ==> Right(init + [p], x)
  {
    hide Right, IsPlain;
    var pieces := init + [p];
    forall n | 0 <= n <= |init| ensures pieces[..n] == init[..n] {}
    assert pieces[..|pieces|] == pieces;
    if AlwaysRight(pieces) {
      forall n, x | 0 <= n <= |init| && IsPlain(x) ensures Right(init[..n], x) {
        assert Right(pieces[..n], x);
      }
      forall x | IsPlain(x) ensures Right(pieces, x) {
        assert Right(pieces[..|pieces|], x);
      }
    }
    if AlwaysRight(init) && forall x :: IsPlain(x) ==> Right(pieces, x) {
      forall n, x | 0 <= n <= |pieces| && IsPlain(x) ensures Right(pieces[..n], x) {
        if n <= |init| { assert Right(init[..n], x); }
      }
    }
  }

  /** Text sent so far, and the state, are those of the reference. */
  ghost predicate InStep(pieces: seq<string>) {
    StripAll(false, pieces) == (Inside(false, Flatten(pieces)), Clean(false, Flatten(pieces)))
  }

  lemma RightNow(pieces: seq<string>, x: string)
    requires InStep(pieces) && IsPlain(x)
    ensures Right(pieces, x) <==>
              Clean(false, Flatten(pieces) + x)
              == Clean(false, Flatten(pieces)) + Clean(Inside(false, Flatten(pieces)), x)
  {
    hide Clean, Inside, Strip;
    StripSnoc(false, pieces, x);
    PlainStep(Inside(false, Flatten(pieces)), x);
  }

  lemma NextInStep(init: seq<string>, p: string)
    requires InStep(init) && !Pending(false, Flatten(init))
    ensures Tidy(p) ==> InStep(init + [p])
    ensures Right(init + [p], "") ==> Tidy(p)
  {
    hide Clean, Inside, Strip, Pending, Tidy, IsPlain;
    var text := Flatten(init);
    NothingPending(false, text, p);
    CleanConcat(false, text, p);
    StripSnoc(false, init, p);
    CutsSnoc(init, p);
    StepExact(Inside(false, text), p);
    StripSnoc(false, init + [p], "");
    NothingMore(StripAll(false, init + [p]).0, text + p);
  }

  lemma NothingMore(inside: bool, text: string)
    ensures Strip(inside, "").1 == "" && text + "" == text
  {
    PlainStep(inside, "");
  }

  lemma EmptyInStep()
    ensures InStep([]) && !Pending(false, Flatten<char>([])) && AllSafe([])
    ensures AlwaysRight([])
  {
    assert Flatten<char>([]) == "";
    EmptyText();
    assert !Includes("", OPEN) && !EndsWithin("", OPEN);
    var none: seq<string> := [];
    forall n, x | 0 <= n <= |none| && IsPlain(x) ensures Right(none[..n], x) {
      assert none[..n] == none;
      RightNow(none, x);
      PlainStep(false, x);
      assert "" + x == x;
    }
  }

  /** The client's text is right at every moment, whatever comes next, if and only if no piece has an
      opening tag behind a closing tag, and none ends within a tag that matters or right behind a block. */
  lemma {:induction false} RightExactly(pieces: seq<string>)
    ensures AlwaysRight(pieces) <==> AllSafe(pieces)
    ensures AllSafe(pieces) ==> InStep(pieces) && !Pending(false, Flatten(pieces))
  {
    hide AlwaysRight, AllSafe, InStep, Pending, Tidy, Right, Flatten;
    if pieces == [] {
      EmptyInStep();
    } else {
      var init, p := pieces[..|pieces| - 1], pieces[|pieces| - 1];
      assert pieces == init + [p];
      SafeSnoc(init, p);
      RightSnoc(init, p);
      RightExactly(init);
      if AllSafe(init) { LastPiece(init, p); }
    }
  }

  lemma LastPiece(init: seq<string>, p: string)
    requires InStep(init) && !Pending(false, Flatten(init))
    ensures (forall x :: IsPlain(x) ==> Right(init + [p], x)) <==> Tidy(p) && !Pending(false, Flatten(init + [p]))
    ensures Tidy(p) ==> InStep(init + [p])
  {
    hide InStep, Pending, Tidy, Right, Flatten, IsPlain;
    NextInStep(init, p);
    var pieces := init + [p];
    assert IsPlain("") by { EmptyIsPlain(); }
    if Tidy(p) {
      var text := Flatten(pieces);
      forall x | IsPlain(x) ensures !Pending(false, text) ==> Right(pieces, x) {
        RightNow(pieces, x);
        if !Pending(false, text) {
          NothingPending(false, text, x);
          CleanConcat(false, text, x);
        }
      }
      if Pending(false, text) {
        var x := PendingMatters(false, text);
        RightNow(pieces, x);
      }
    }
  }

  lemma EmptyIsPlain()
    ensures IsPlain("")
  {
  }

  // ---------------------------------------------------------------- where the program goes wrong

  /** The reference drops a block together with the line feed behind it. */
  lemma CleanBlock(pre: string, mid: string, post: string)
    requires !Includes(pre, OPEN) && !Includes(mid, CLOSE)
    ensures Clean(false, pre + (OPEN + (mid + (CLOSE + post)))) == pre + Clean(false, DropNewline(post))
    ensures Inside(false, pre + (OPEN + (mid + (CLOSE + post)))) == Inside(false, DropNewline(post))
  {
    hide IndexFrom, Clean, Inside;
    BothTags();
    var rest := mid + (CLOSE + post);
    var s := pre + (OPEN + rest);
    FirstAfter(pre, rest, OPEN);
    OpenFound(s, |pre|);
    assert s[..|pre|] == pre && s[|pre| + |OPEN|..] == rest;
    FirstAfter(mid, post, CLOSE);
    CloseFound(rest, |mid|);
    assert rest[|mid| + |CLOSE|..] == post;
  }

  /** Two blocks in one piece: only the first is dropped. */
  lemma TwoBlocks(a: string, b: string, c: string)
    requires IsPlain(a) && IsPlain(b) && IsPlain(c) && (b == "" || b[0] != '\n')
    ensures var p := OPEN + (a + (CLOSE + (b + (OPEN + (c + CLOSE)))));
            Strip(false, p) == (false, b + (OPEN + (c + CLOSE))) && Clean(false, p) == b
  {
    hide IndexFrom, Clean, Inside, Strip;
    BothTags();
    NoneInPlain(a, CLOSE);
    NoneInPlain(b, OPEN);
    NoneInPlain(c, CLOSE);
    var second := b + (OPEN + (c + CLOSE));
    var p := OPEN + (a + (CLOSE + second));
    assert DropNewline(second) == second;
    assert "" + p == p && "" + second == second && CLOSE + "" == CLOSE && b + "" == b;
    assert !Includes("", OPEN) && !Includes("", CLOSE) && DropNewline("") == "";
    WholeBlock("", a, second);
    CleanBlock("", a, second);
    CleanBlock(b, c, "");
    EmptyText();
    assert "" + b == b;
  }

  lemma TwoPieces(p: string, q: string)
    ensures var (x, s) := Strip(false, p);
            var (y, t) := Strip(x, q);
            StripAll(false, [p, q]) == (y, s + t)
  {
    hide Strip;
    assert [p] + [q] == [p, q] && [] + [p] == [p];
    StripSnoc(false, [], p);
    StripSnoc(false, [p], q);
    assert "" + Strip(false, p).1 == Strip(false, p).1;
  }

  /** The beginning of a tag is no tag, and neither is what is left of it. */
  lemma NoneCut(a: string, tag: string, k: nat)
    requires IsTag(tag) && !Includes(a, tag) && 0 < k < |tag|
    ensures !Includes(a + tag[..k], tag)
  {
    var s := a + tag[..k];
    forall i: nat ensures !OccursAt(s, tag, i) {
      if i < |a| { NoneAcross(a, tag[..k], tag, i); }
    }
  }

  lemma NoneLeft(tag: string, k: nat, b: string)
    requires IsTag(tag) && !Includes(b, tag) && 0 < k < |tag|
    ensures !Includes(tag[k..] + b, tag)
  {
    var s, n := tag[k..] + b, |tag| - k;
    NoTag(b, tag);
    forall i: nat ensures !OccursAt(s, tag, i) {
      if OccursAt(s, tag, i) {
        if i < n {
          assert s[i] == tag[k + i];
          CharOf(s, tag, i, i);
        } else {
          assert s[i..i + |tag|] == b[i - n..i - n + |tag|];
          assert OccursAt(b, tag, i - n);
        }
      }
    }
  }

  /** Wherever an opening tag is cut, all of it is sent, with its block and the end of the block. */
  lemma SplitOpenLeaks(k: nat, pre: string, rest: string)
    requires 0 < k < |OPEN| && !Includes(pre, OPEN) && !Includes(rest, OPEN)
    ensures StripAll(false, [pre + OPEN[..k], OPEN[k..] + rest]) == (false, pre + (OPEN + rest))
    ensures Clean(false, pre + (OPEN + rest)) == pre + Clean(true, rest)
  {
    BothTags();
    NoneCut(pre, OPEN, k);
    NoneLeft(OPEN, k, rest);
    FirstAfter(pre, rest, OPEN);
    hide IndexFrom, Clean, Inside;
    TwoPieces(pre + OPEN[..k], OPEN[k..] + rest);
    CutTag(pre, OPEN, k, rest);
    OpenFound(pre + (OPEN + rest), |pre|);
    assert (pre + (OPEN + rest))[|pre| + |OPEN|..] == rest && (pre + (OPEN + rest))[..|pre|] == pre;
  }

  lemma CutTag(a: string, tag: string, k: nat, b: string)
    requires k <= |tag|
    ensures a + tag[..k] + (tag[k..] + b) == a + (tag + b)
  {
    assert tag[..k] + tag[k..] == tag;
    Assoc(a, tag[..k], tag[k..] + b);
    Assoc(tag[..k], tag[k..], b);
  }

  /** Wherever a closing tag is cut, the text behind it is lost, up to the next closing tag. That shows
      exactly if there is such text, so not every cut within a tag changes what is sent. */
  lemma SplitCloseLoses(k: nat, pre: string, mid: string, post: string)
    requires 0 < k < |CLOSE| && !Includes(pre, OPEN) && !Includes(pre, CLOSE)
    requires !Includes(mid, CLOSE) && !Includes(post, CLOSE)
    ensures StripAll(false, [pre + (OPEN + (mid + CLOSE[..k])), CLOSE[k..] + post]) == (true, pre)
    ensures Clean(false, pre + (OPEN + (mid + (CLOSE + post)))) == pre + Clean(false, DropNewline(post))
    ensures pre + (OPEN + (mid + CLOSE[..k])) + (CLOSE[k..] + post) == pre + (OPEN + (mid + (CLOSE + post)))
  {
    BothTags();
    NoneCut(mid, CLOSE, k);
    NoneLeft(CLOSE, k, post);
    BlockBegins(pre, mid + CLOSE[..k]);
    CleanBlock(pre, mid, post);
    CutWithin(pre, OPEN, mid, CLOSE, k, post);
    hide IndexFrom, Clean, Inside;
    TwoPieces(pre + (OPEN + (mid + CLOSE[..k])), CLOSE[k..] + post);
    assert pre + "" == pre;
  }

  lemma CutWithin(a: string, b: string, mid: string, tag: string, k: nat, post: string)
    requires k <= |tag|
    ensures a + (b + (mid + tag[..k])) + (tag[k..] + post) == a + (b + (mid + (tag + post)))
  {
    CutTag(mid, tag, k, post);
    Assoc(b, mid + tag[..k], tag[k..] + post);
    Assoc(a, b + (mid + tag[..k]), tag[k..] + post);
  }
}
