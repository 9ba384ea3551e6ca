/** How the Kiro executor keeps leaked thinking blocks out of the text (open-sse/executors/kiro.js).
    Text arrives in pieces; a block may begin in one piece and end in another. */
module KiroThinking {
  import opened Basics
  import opened Text

  const OPEN := "<thinking>"
  const CLOSE := "</thinking>"

  function Before(s: string, sub: string): string
    requires Includes(s, sub)
  {
    s[..IndexFrom(s, sub, 0).value]
  }

  function After(s: string, sub: string): string
    requires Includes(s, sub)
  {
    s[IndexFrom(s, sub, 0).value + |sub|..]
  }

  function DropNewline(s: string): string { if s != "" && s[0] == '\n' then s[1..] else s }

  /** Whether the stream is inside a thinking block afterwards, and what is left of the text. */
  function Strip(inThinking: bool, content: string): (bool, string) {
    if inThinking then
      if Includes(content, CLOSE) then (false, DropNewline(After(content, CLOSE))) else (true, "")
    else if Includes(content, OPEN) then
      if Includes(content, CLOSE) then (false, Before(content, OPEN) + DropNewline(After(content, CLOSE)))
      else (true, Before(content, OPEN))
    else (false, content)
  }

  // ---------------------------------------------------------------- where tags stand

  predicate IsTag(tag: string) { |tag| > 0 && tag[0] == '<' && forall i :: 0 < i < |tag| ==> tag[i] != '<' }

  /** A tag cannot reach from a text without it into a text that begins with another tag. */
  lemma NoneAcross(a: string, b: string, tag: string, i: nat)
    requires IsTag(tag) && !Includes(a, tag) && b != "" && b[0] == '<' && i < |a|
    ensures !OccursAt(a + b, tag, i)
  {
    var s := a + b;
    if i + |tag| <= |a| {
      assert s[i..i + |tag|] == a[i..i + |tag|];
      assert !OccursAt(a, tag, i);
    } else {
      assert s[|a|] == '<' && tag[|a| - i] != '<';
      assert i + |tag| <= |s| ==> s[i..i + |tag|][|a| - i] == s[|a|];
    }
  }

  /** So the first tag of a text followed by that tag is where the text ends. */
  lemma FirstAfter(a: string, b: string, tag: string)
    requires IsTag(tag) && !Includes(a, tag)
    ensures IndexFrom(a + (tag + b), tag, 0) == Some(|a|)
  {
    forall i | 0 <= i < |a| ensures !OccursAt(a + (tag + b), tag, i) {
      NoneAcross(a, tag + b, tag, i);
    }
    assert (a + (tag + b))[|a|..|a| + |tag|] == tag;
    FoundAt(a + (tag + b), tag, |a|);
  }

  lemma BothTags()
    ensures IsTag(OPEN) && IsTag(CLOSE) && |OPEN| == 10 && |CLOSE| == 11 && OPEN[1] != CLOSE[1]
  {
  }

  /** No closing tag comes from opening a block. */
  lemma NoClose(pre: string, mid: string)
    requires !Includes(pre, CLOSE) && !Includes(mid, CLOSE)
    ensures !Includes(pre + (OPEN + mid), CLOSE)
  {
    BothTags();
    var s := pre + (OPEN + mid);
    forall i: nat ensures !OccursAt(s, CLOSE, i) {
      if i + |CLOSE| <= |s| {
        var at := s[i..i + |CLOSE|];
        assert at[0] == s[i] && at[1] == s[i + 1];
        if i < |pre| {
          NoneAcross(pre, OPEN + mid, CLOSE, i);
        } else if i < |pre| + |OPEN| {
          assert s[i] == OPEN[i - |pre|];
          assert i == |pre| ==> s[i + 1] == OPEN[1];
        } else {
          var k := i - |pre| - |OPEN|;
          assert at == mid[k..k + |CLOSE|];
          assert !OccursAt(mid, CLOSE, k);
        }
      }
    }
  }

  // ---------------------------------------------------------------- a block is dropped

  /** A block within one piece. */
  lemma WholeBlock(pre: string, mid: string, post: string)
    requires !Includes(pre, OPEN) && !Includes(pre, CLOSE) && !Includes(mid, CLOSE)
    ensures Strip(false, pre + (OPEN + (mid + (CLOSE + post)))) == (false, pre + DropNewline(post))
  {
    hide IndexFrom, OccursAt;
    BothTags();
    var tail := CLOSE + post;
    var head := pre + (OPEN + mid);
    FirstAfter(pre, mid + tail, OPEN);
    NoClose(pre, mid);
    FirstAfter(head, post, CLOSE);
    Assoc(OPEN, mid, tail);
    Assoc(pre, OPEN + mid, tail);
    assert (head + tail)[|head| + |CLOSE|..] == post;
    assert (pre + (OPEN + (mid + tail)))[..|pre|] == pre;
  }

  lemma BlockBegins(pre: string, mid: string)
    requires !Includes(pre, OPEN) && !Includes(pre, CLOSE) && !Includes(mid, CLOSE)
    ensures Strip(false, pre + (OPEN + mid)) == (true, pre)
  {
    BothTags();
    FirstAfter(pre, mid, OPEN);
    NoClose(pre, mid);
    assert (pre + (OPEN + mid))[..|pre|] == pre;
  }

  lemma BlockEnds(mid: string, post: string)
    requires !Includes(mid, CLOSE)
    ensures Strip(true, mid + (CLOSE + post)) == (false, DropNewline(post))
  {
    BothTags();
    FirstAfter(mid, post, CLOSE);
    assert (mid + (CLOSE + post))[|mid| + |CLOSE|..] == post;
  }

  /** All pieces, one after the other: the state at the end and the text left over. */
  function StripAll(inThinking: bool, pieces: seq<string>): (bool, string) {
    if pieces == [] then (inThinking, "")
    else
      var (before, text) := StripAll(inThinking, pieces[..|pieces| - 1]);
      var (after, more) := Strip(before, pieces[|pieces| - 1]);
      (after, text + more)
  }

  lemma StripSnoc(inThinking: bool, pieces: seq<string>, piece: string)
    ensures var (before, text) := StripAll(inThinking, pieces);
            var (after, more) := Strip(before, piece);
            StripAll(inThinking, pieces + [piece]) == (after, text + more)
  {
    hide Strip;
    assert (pieces + [piece])[..|pieces|] == pieces;
  }

  lemma {:induction false} BlockGoesOn(pieces: seq<string>, pre: string, first: string)
    requires Strip(false, first) == (true, pre) && forall p :: p in pieces ==> !Includes(p, CLOSE)
    ensures StripAll(false, [first] + pieces) == (true, pre)
  {
    var all := [first] + pieces;
    if pieces == [] {
      assert all[..0] == [];
      assert "" + pre == pre;
    } else {
      var init := pieces[..|pieces| - 1];
      assert all[..|all| - 1] == [first] + init;
      BlockGoesOn(init, pre, first);
      assert pre + "" == pre;
    }
  }

  /** One block spread over any number of pieces, none of which ends within a tag: it is dropped, and the
      text behind it in its last piece is passed on as it is, whatever it holds. */
  lemma SpreadBlock(pre: string, begin: string, middle: seq<string>, end: string, post: string)
    requires !Includes(pre, OPEN) && !Includes(pre, CLOSE)
    requires forall p :: p in [begin] + middle + [end] ==> !Includes(p, CLOSE)
    ensures StripAll(false, [pre + (OPEN + begin)] + middle + [end + (CLOSE + post)]) ==
              (false, pre + DropNewline(post))
  {
    var ps := [begin] + middle + [end];
    assert ps[0] == begin && ps[|middle| + 1] == end;
    forall p | p in middle ensures !Includes(p, CLOSE) {
      assert p in ps;
    }
    BlockBegins(pre, begin);
    BlockEnds(end, post);
    BlockGoesOn(middle, pre, pre + (OPEN + begin));
    var all := [pre + (OPEN + begin)] + middle + [end + (CLOSE + post)];
    assert all[..|all| - 1] == [pre + (OPEN + begin)] + middle;
  }
}
