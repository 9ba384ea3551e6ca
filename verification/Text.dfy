/** Searching and trimming strings as the program's language does. */
module Text {
  import opened Basics

  predicate OccursAt(s: string, sub: string, i: nat) { i + |sub| <= |s| && s[i..i + |sub|] == sub }

  /** The first occurrence of `sub` at or after `i`. */
  function IndexFrom(s: string, sub: string, i: nat): (r: Option<nat>)
    ensures r.Some? ==> i <= r.value && OccursAt(s, sub, r.value)
    ensures r.Some? ==> forall j :: i <= j < r.value ==> !OccursAt(s, sub, j)
    ensures r.None? ==> forall j :: i <= j ==> !OccursAt(s, sub, j)
    decreases |s| - i
  {
    if i + |sub| > |s| then None else if OccursAt(s, sub, i) then Some(i) else IndexFrom(s, sub, i + 1)
  }

  /** The last occurrence of `sub` before `end`. */
  function LastBefore(s: string, sub: string, end: nat): (r: Option<nat>)
    ensures r.Some? ==> r.value < end && OccursAt(s, sub, r.value)
    ensures r.Some? ==> forall j :: r.value < j < end ==> !OccursAt(s, sub, j)
    ensures r.None? ==> forall j :: 0 <= j < end ==> !OccursAt(s, sub, j)
  {
    if end == 0 then None else if OccursAt(s, sub, end - 1) then Some(end - 1) else LastBefore(s, sub, end - 1)
  }

  lemma FoundAt(s: string, sub: string, i: nat)
    requires OccursAt(s, sub, i) && forall j :: 0 <= j < i ==> !OccursAt(s, sub, j)
    ensures IndexFrom(s, sub, 0) == Some(i)
  {
  }

  lemma FitsIn(s: string, sub: string, i: nat)
    requires OccursAt(s, sub, i)
    ensures i + |sub| <= |s|
  {
  }

  predicate Includes(s: string, sub: string) { IndexFrom(s, sub, 0).Some? }

  /** White space and line ends, as trimming sees them. */
  predicate IsSpace(c: char) {
    || c == ' ' || '\t' <= c <= '\r' || c == '\U{a0}' || c == '\U{1680}' || '\U{2000}' <= c <= '\U{200a}'
    || c == '\U{2028}' || c == '\U{2029}' || c == '\U{202f}' || c == '\U{205f}' || c == '\U{3000}' || c == '\U{feff}'
  }

  function TrimStart(s: string): (r: string)
    ensures |r| <= |s| && r == s[|s| - |r|..]
    ensures r != "" ==> !IsSpace(r[0])
  {
    if s != "" && IsSpace(s[0]) then TrimStart(s[1..]) else s
  }

  function TrimEnd(s: string): (r: string)
    ensures |r| <= |s| && r == s[..|r|]
    ensures r != "" ==> !IsSpace(r[|r| - 1])
  {
    if s != "" && IsSpace(s[|s| - 1]) then TrimEnd(s[..|s| - 1]) else s
  }

  /** What goes is white space. */
  lemma {:induction false} TrimStartDrops(s: string, i: nat)
    requires i < |s| - |TrimStart(s)|
    ensures IsSpace(s[i])
  {
    hide IsSpace;
    if i > 0 { TrimStartDrops(s[1..], i - 1); }
  }

  function Trim(s: string): string { TrimEnd(TrimStart(s)) }

  lemma {:induction false} TrimStartGrows(s: string, more: string)
    ensures TrimStart(s) <= TrimStart(s + more)
  {
    if s != "" {
      assert (s + more)[0] == s[0];
      if IsSpace(s[0]) {
        assert (s + more)[1..] == s[1..] + more;
        TrimStartGrows(s[1..], more);
      }
    }
  }
}
