/** The names in a Cursor event stream (open-sse/executors/cursor.js). A client takes a call's name from its
    first delta; the deltas that bring more arguments carry the names of their own fragments. */
module CursorNames {
  import opened Basics
  import opened CursorTools
  import opened CursorDecoders

  /** Each tool delta carries the name that its call has. */
  ghost predicate OneName(ds: seq<Delta>, calls: seq<Call>) {
    forall k :: 0 <= k < |ds| && ds[k].ToolDelta? ==>
      ds[k].index < |calls| && calls[ds[k].index].id == ds[k].id && ds[k].name == calls[ds[k].index].name
  }

  /** Each tool delta belongs to a call. */
  ghost predicate Indexed(ds: seq<Delta>, calls: seq<Call>) {
    forall k :: 0 <= k < |ds| && ds[k].ToolDelta? ==> ds[k].index < |calls| && calls[ds[k].index].id == ds[k].id
  }

  /** Every fragment that brings arguments has the name of the first fragment of its id. */
  ghost predicate NameKept(fs: seq<Fragment>) {
    forall f :: f in fs && Known(fs, f.id) && f.args != "" ==> f.name == NameOf(fs, f.id)
  }

  lemma {:induction false} KnownIn(fs: seq<Fragment>, f: Fragment)
    requires f in fs
    ensures Known(fs, f.id)
  {
    if f != fs[|fs| - 1] { KnownIn(fs[..|fs| - 1], f); }
  }

  lemma NameSnoc(fs: seq<Fragment>, f: Fragment, id: string)
    ensures Known(fs + [f], id) <==> Known(fs, id) || f.id == id
    ensures Known(fs + [f], id) ==> NameOf(fs + [f], id) == if Known(fs, id) then NameOf(fs, id) else f.name
  {
    assert (fs + [f])[..|fs|] == fs;
  }

  lemma KeptSnoc(fs: seq<Fragment>, f: Fragment)
    ensures NameKept(fs + [f]) <==>
              NameKept(fs) && (Known(fs, f.id) && f.args != "" ==> f.name == NameOf(fs, f.id))
  {
    hide NameOf, Known;
    forall g | g in fs + [f]
      ensures Known(fs + [f], g.id)
      ensures NameOf(fs + [f], g.id) == if Known(fs, g.id) then NameOf(fs, g.id) else f.name
    {
      NameSnoc(fs, f, g.id);
      if g in fs { KnownIn(fs, g); }
    }
    forall g | g in fs ensures Known(fs, g.id) && g in fs + [f] { KnownIn(fs, g); }
    assert f in fs + [f];
  }

  /** The names are as they should be exactly if the fragments keep theirs. */
  ghost predicate NamesOk(s: Sse) {
    && Indexed(s.chunks, Gather(s.taken))
    && (OneName(s.chunks, Gather(s.taken)) <==> NameKept(s.taken))
  }

  ghost predicate Extends(calls: seq<Call>, more: seq<Call>) {
    && |calls| <= |more|
    && forall k :: 0 <= k < |calls| ==> more[k].id == calls[k].id && more[k].name == calls[k].name
  }

  lemma JoinExtends(calls: seq<Call>, f: Fragment)
    ensures Extends(calls, Join(calls, f))
  {
    hide Find;
  }

  lemma NamesKnown(calls: seq<Call>, more: seq<Call>, ds: seq<Delta>)
    requires Extends(calls, more) && Indexed(ds, calls)
    ensures Indexed(ds, more) && (OneName(ds, more) <==> OneName(ds, calls))
  {
  }

  lemma DeltaNamed(ds: seq<Delta>, d: Delta, calls: seq<Call>)
    requires Indexed(ds, calls)
    ensures d.TextDelta? ==> Indexed(ds + [d], calls) && (OneName(ds + [d], calls) <==> OneName(ds, calls))
    ensures d.ToolDelta? && d.index < |calls| && calls[d.index].id == d.id ==>
              Indexed(ds + [d], calls) &&
              (OneName(ds + [d], calls) <==> OneName(ds, calls) && d.name == calls[d.index].name)
  {
    var more := ds + [d];
    assert more[|ds|] == d && forall k :: 0 <= k < |ds| ==> more[k] == ds[k];
  }

  /** A fragment of a known call, or of a new one. */
  lemma KnownTool(s: Sse, f: Fragment)
    requires SseOk(s) && f.id in s.tools
    ensures var calls, k := Gather(s.taken), s.tools[f.id].index;
            && k < |calls| && calls[k].id == f.id
            && Known(s.taken, f.id) && calls[k].name == NameOf(s.taken, f.id)
            && Join(calls, f) == calls[k := calls[k].(args := calls[k].args + f.args)]
  {
    hide CallsOf, TextOf, RolesOk, Gather, Find;
    GatherMeans(s.taken, f.id);
    PlacedFind(s.tools, Gather(s.taken), f.id);
  }

  lemma NewTool(s: Sse, f: Fragment)
    requires SseOk(s) && f.id !in s.tools
    ensures var calls := Gather(s.taken);
            !Known(s.taken, f.id) && |s.ids| == |calls| && Join(calls, f) == calls + [Call(f.id, f.name, f.args)]
  {
    hide CallsOf, TextOf, RolesOk, Gather, Find;
    GatherMeans(s.taken, f.id);
    PlacedFind(s.tools, Gather(s.taken), f.id);
  }

  lemma OpenedNames(ds: seq<Delta>, calls: seq<Call>)
    ensures Indexed(Opened(ds), calls) <==> Indexed(ds, calls)
    ensures OneName(Opened(ds), calls) <==> OneName(ds, calls)
  {
  }

  lemma ToolNames(s: Sse, f: Fragment)
    requires SseOk(s) && NamesOk(s)
    ensures NamesOk(SseTool(s, f))
  {
    var calls, ds := Gather(s.taken), Opened(s.chunks);
    var more := Join(calls, f);
    GatherSnoc(s.taken, f);
    KeptSnoc(s.taken, f);
    OpenedNames(s.chunks, calls);
    JoinExtends(calls, f);
    if f.id in s.tools { KnownTool(s, f); } else { NewTool(s, f); }
    hide SseOk, Gather, Join, NameKept, NameOf, Known, Indexed, OneName, Extends;
    NamesKnown(calls, more, ds);
    if f.id in s.tools {
      DeltaNamed(ds, ToolDelta(s.tools[f.id].index, f.id, f.name, f.args), more);
    } else {
      DeltaNamed(ds, ToolDelta(|s.ids|, f.id, f.name, f.args), more);
    }
  }

  lemma TextNames(s: Sse, text: string)
    requires NamesOk(s)
    ensures NamesOk(SseText(s, text))
  {
    hide Gather, NameKept, Indexed, OneName;
    DeltaNamed(s.chunks, TextDelta(s.chunks == [] && s.ids == [], text), Gather(s.taken));
  }

  lemma StepNames(s: Sse, composer: bool, visible: string -> string, f: Frame)
    requires SseOk(s) && NamesOk(s)
    ensures NamesOk(SseStep(s, composer, visible, f))
  {
    hide Verdict, SseTool, SseText, SseOk, Gather, NameKept, Indexed, OneName;
    var t := if f.tool.Some? then SseTool(s, f.tool.value) else s;
    if f.tool.Some? { ToolNames(s, f.tool.value); }
    TextNames(t, f.text);
    var u := SseText(t, f.text);
    var all := u.thinking + f.thinking;
    if |visible(all)| > u.shown { TextNames(u.(thinking := all), visible(all)[u.shown..]); }
  }

  lemma {:induction false} RunNames(composer: bool, visible: string -> string, fs: seq<Frame>)
    ensures NamesOk(SseRun(composer, visible, fs))
  {
    if fs != [] {
      hide SseOk, NamesOk, SseStep;
      RunNames(composer, visible, fs[..|fs| - 1]);
      SseInv(composer, visible, fs[..|fs| - 1]);
      StepNames(SseRun(composer, visible, fs[..|fs| - 1]), composer, visible, fs[|fs| - 1]);
    }
  }

  /** For any model: every tool delta belongs to its call, and carries the call's name, which is that of the
      first fragment, if and only if every fragment that brings arguments has the name of the first one of
      its id. */
  lemma StreamNames(composer: bool, visible: string -> string, fs: seq<Frame>)
    ensures var s := SseRun(composer, visible, fs);
            SseAnswer(s).Stream? ==>
              var ds := SseAnswer(s).deltas;
              Indexed(ds, CallsOf(ds)) && (OneName(ds, CallsOf(ds)) <==> NameKept(s.taken))
  {
    RunNames(composer, visible, fs);
    StreamShape(composer, visible, fs);
    SseInv(composer, visible, fs);
    var s := SseRun(composer, visible, fs);
    hide SseRun, Gather, CallsOf, TextOf, RolesOk, Placed, NameKept, Indexed, OneName;
    OpenedNames(s.chunks, Gather(s.taken));
  }
}
