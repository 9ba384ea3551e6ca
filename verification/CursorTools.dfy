/** The tool calls of a Cursor response, which arrive in fragments (open-sse/executors/cursor.js). */
module CursorTools {
  import opened Basics

  datatype Fragment = Fragment(id: string, name: string, args: string, isLast: bool)

  datatype Call = Call(id: string, name: string, args: string)

  // ---------------------------------------------------------------- what the fragments say

  /** Where the call with this id stands. */
  function Find(calls: seq<Call>, id: string): (r: Option<nat>)
    ensures r.Some? ==> r.value < |calls| && calls[r.value].id == id
    ensures r.None? ==> forall k :: 0 <= k < |calls| ==> calls[k].id != id
  {
    if calls == [] then None
    else if calls[|calls| - 1].id == id then Some(|calls| - 1)
    else Find(calls[..|calls| - 1], id)
  }

  /** One fragment more: its arguments join those of its id; a new id is a new call. */
  function Join(calls: seq<Call>, f: Fragment): seq<Call> {
    match Find(calls, f.id)
    case Some(k) => calls[k := calls[k].(args := calls[k].args + f.args)]
    case None => calls + [Call(f.id, f.name, f.args)]
  }

  /** The calls that the fragments make up, each where its id first appears. */
  function Gather(fs: seq<Fragment>): seq<Call> {
    if fs == [] then [] else Join(Gather(fs[..|fs| - 1]), fs[|fs| - 1])
  }

  predicate Known(fs: seq<Fragment>, id: string) {
    fs != [] && (fs[|fs| - 1].id == id || Known(fs[..|fs| - 1], id))
  }

  /** The name comes with the first fragment. */
  function NameOf(fs: seq<Fragment>, id: string): string
    requires Known(fs, id)
  {
    if Known(fs[..|fs| - 1], id) then NameOf(fs[..|fs| - 1], id) else fs[|fs| - 1].name
  }

  /** The arguments are those of all its fragments, joined. */
  function ArgsOf(fs: seq<Fragment>, id: string): string {
    if fs == [] then ""
    else ArgsOf(fs[..|fs| - 1], id) + (if fs[|fs| - 1].id == id then fs[|fs| - 1].args else "")
  }

  /** The calls with one id. */
  function Of(calls: seq<Call>, id: string): seq<Call> {
    if calls == [] then []
    else Of(calls[..|calls| - 1], id) + (if calls[|calls| - 1].id == id then [calls[|calls| - 1]] else [])
  }

  /** The same calls for every id, in whatever order the ids come. */
  ghost predicate SameCalls(a: seq<Call>, b: seq<Call>) { forall id :: Of(a, id) == Of(b, id) }

  ghost predicate DistinctIds(calls: seq<Call>) {
    forall j, k :: 0 <= j < k < |calls| ==> calls[j].id != calls[k].id
  }

  lemma {:induction false} OfConcat(a: seq<Call>, b: seq<Call>, id: string)
    ensures Of(a + b, id) == Of(a, id) + Of(b, id)
  {
    if b == [] {
      assert a + b == a;
    } else {
      assert (a + b)[..|a + b| - 1] == a + b[..|b| - 1];
      OfConcat(a, b[..|b| - 1], id);
    }
  }

  lemma {:induction false} OfNone(calls: seq<Call>, id: string)
    requires Find(calls, id).None?
    ensures Of(calls, id) == []
  {
    if calls != [] { OfNone(calls[..|calls| - 1], id); }
  }

  lemma {:induction false} OfDistinct(calls: seq<Call>, id: string)
    requires DistinctIds(calls)
    ensures Of(calls, id) == match Find(calls, id) case Some(k) => [calls[k]] case None => []
  {
    if calls != [] {
      var init := calls[..|calls| - 1];
      if calls[|calls| - 1].id == id {
        assert forall k :: 0 <= k < |init| ==> init[k] == calls[k];
        OfNone(init, id);
      } else {
        OfDistinct(init, id);
      }
    }
  }

  lemma JoinDistinct(calls: seq<Call>, f: Fragment)
    requires DistinctIds(calls)
    ensures DistinctIds(Join(calls, f))
  {
  }

  /** In distinct calls an id stands in one place only. */
  lemma FindAt(calls: seq<Call>, k: nat)
    requires DistinctIds(calls) && k < |calls|
    ensures Find(calls, calls[k].id) == Some(k)
  {
  }

  lemma FindJoin(calls: seq<Call>, f: Fragment, id: string)
    requires DistinctIds(calls)
    ensures Find(Join(calls, f), id) ==
              if id == f.id && Find(calls, id).None? then Some(|calls|) else Find(calls, id)
  {
    var more := Join(calls, f);
    JoinDistinct(calls, f);
    match Find(calls, id)
    case Some(k) => assert more[k].id == id; FindAt(more, k);
    case None => if id == f.id { FindAt(more, |calls|); }
  }

  /** The call with one id. */
  function At(calls: seq<Call>, id: string): Option<Call> {
    match Find(calls, id) case Some(k) => Some(calls[k]) case None => None
  }

  function Extended(c: Option<Call>, f: Fragment): Call {
    match c case Some(call) => call.(args := call.args + f.args) case None => Call(f.id, f.name, f.args)
  }

  lemma AtJoin(calls: seq<Call>, f: Fragment, id: string)
    requires DistinctIds(calls)
    ensures DistinctIds(Join(calls, f))
    ensures At(Join(calls, f), id) == if id == f.id then Some(Extended(At(calls, id), f)) else At(calls, id)
  {
    JoinDistinct(calls, f);
    FindJoin(calls, f, id);
    hide Find;
  }

  function Meant(fs: seq<Fragment>, id: string): Option<Call> {
    if Known(fs, id) then Some(Call(id, NameOf(fs, id), ArgsOf(fs, id))) else None
  }

  lemma {:induction false} UnknownEmpty(fs: seq<Fragment>, id: string)
    requires !Known(fs, id)
    ensures ArgsOf(fs, id) == ""
  {
    if fs != [] { UnknownEmpty(fs[..|fs| - 1], id); }
  }

  lemma MeantStep(fs: seq<Fragment>, id: string)
    requires fs != []
    ensures var init, f := fs[..|fs| - 1], fs[|fs| - 1];
            Meant(fs, id) == if id == f.id then Some(Extended(Meant(init, id), f)) else Meant(init, id)
  {
    var init, f := fs[..|fs| - 1], fs[|fs| - 1];
    if !Known(init, id) { UnknownEmpty(init, id); }
    assert "" + f.args == f.args;
    assert ArgsOf(init, id) + "" == ArgsOf(init, id);
  }

  /** The calls gathered are one per id that came, with the name of its first fragment and the
      arguments of all. */
  lemma {:induction false} GatherMeans(fs: seq<Fragment>, id: string)
    ensures DistinctIds(Gather(fs)) && At(Gather(fs), id) == Meant(fs, id)
  {
    if fs != [] {
      hide At, Meant, Join, DistinctIds;
      GatherMeans(fs[..|fs| - 1], id);
      AtJoin(Gather(fs[..|fs| - 1]), fs[|fs| - 1], id);
      MeantStep(fs, id);
    } else {
      assert Gather([]) == [];
    }
  }

  // ---------------------------------------------------------------- fragments marked as last

  /** The arguments known so far, at each fragment of the id that is marked as the last. */
  function Lasts(fs: seq<Fragment>, id: string): seq<string> {
    if fs == [] then []
    else
      var f := fs[|fs| - 1];
      Lasts(fs[..|fs| - 1], id) + (if f.id == id && f.isLast then [ArgsOf(fs, id)] else [])
  }

  /** The mark is kept: behind a fragment marked as the last there is no other mark for that id, and no
      more arguments. */
  ghost predicate MarkKept(fs: seq<Fragment>, id: string) {
    forall i, j :: 0 <= i < j < |fs| && fs[i].id == fs[j].id == id && fs[i].isLast ==> !fs[j].isLast && fs[j].args == ""
  }

  ghost predicate Marked(fs: seq<Fragment>, id: string) { exists i :: 0 <= i < |fs| && fs[i].id == id && fs[i].isLast }

  lemma MarkStep(init: seq<Fragment>, f: Fragment, id: string)
    ensures MarkKept(init + [f], id) <==>
              MarkKept(init, id) && (f.id == id && Marked(init, id) ==> !f.isLast && f.args == "")
    ensures Marked(init + [f], id) <==> Marked(init, id) || (f.id == id && f.isLast)
  {
    var fs := init + [f];
    assert forall i :: 0 <= i < |init| ==> fs[i] == init[i];
    assert fs[|init|] == f;
  }

  lemma LastsStep(init: seq<Fragment>, f: Fragment, id: string)
    ensures Lasts(init + [f], id) == Lasts(init, id) + (if f.id == id && f.isLast then [ArgsOf(init + [f], id)] else [])
    ensures ArgsOf(init + [f], id) == ArgsOf(init, id) + (if f.id == id then f.args else "")
  {
    assert (init + [f])[..|init|] == init;
  }

  /** The mark is kept exactly when the arguments at the mark, if any, are all the arguments. */
  lemma {:induction false} LastsMeans(fs: seq<Fragment>, id: string)
    ensures Lasts(fs, id) != [] <==> Marked(fs, id)
    ensures forall a :: a in Lasts(fs, id) ==> |a| <= |ArgsOf(fs, id)|
    ensures MarkKept(fs, id) <==> Lasts(fs, id) == [] || Lasts(fs, id) == [ArgsOf(fs, id)]
  {
    if fs != [] {
      var init, f := fs[..|fs| - 1], fs[|fs| - 1];
      assert fs == init + [f];
      LastsMeans(init, id);
      MarkStep(init, f, id);
      LastsStep(init, f, id);
      hide Lasts, ArgsOf, MarkKept, Marked;
      LastsCases(Lasts(init, id), ArgsOf(init, id), Lasts(fs, id), ArgsOf(fs, id), f, id);
    }
  }

  lemma LastsCases(was: seq<string>, args: string, lasts: seq<string>, all: string, f: Fragment, id: string)
    requires all == args + (if f.id == id then f.args else "")
    requires lasts == was + (if f.id == id && f.isLast then [all] else [])
    requires forall a :: a in was ==> |a| <= |args|
    ensures forall a :: a in lasts ==> |a| <= |all|
    ensures (lasts == [] || lasts == [all]) <==>
              (was == [] || was == [args]) && (f.id == id && was != [] ==> !f.isLast && f.args == "")
  {
    assert args + "" == args && was + [] == was && [] + [all] == [all];
    if was != [] {
      assert lasts[0] == was[0] && was[0] in was;
      assert f.id == id && f.isLast ==> |lasts| == |was| + 1;
    }
  }
}
