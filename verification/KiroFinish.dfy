/** What the finish chunks of a Kiro stream say (open-sse/executors/kiro.js). */
module KiroFinish {
  import opened Basics
  import opened KiroEvents

  /** The last metrics that reported something. */
  function LastMetrics(es: seq<Event>): Option<Usage> {
    if es == [] then None
    else
      var e := es[|es| - 1];
      if IsMetrics(e) then Some(Usage(e.input, e.output)) else LastMetrics(es[..|es| - 1])
  }

  /** The last percentage of the context that was reported. */
  function LastPercentage(es: seq<Event>): real {
    if es == [] then 0.0
    else if IsContext(es[|es| - 1]) then es[|es| - 1].percentage
    else LastPercentage(es[..|es| - 1])
  }

  /** One token for four characters of text, and one at least where there is any. */
  ghost predicate TokensOf(tokens: int, length: nat) {
    if length == 0 then tokens == 0
    else if length < 4 then tokens == 1
    else 4 * tokens <= length < 4 * (tokens + 1)
  }

  /** The whole tokens in that percentage of the context window. */
  ghost predicate ShareOf(tokens: int, percentage: real, window: int) {
    if percentage <= 0.0 then tokens == 0
    else tokens as real <= percentage * window as real / 100.0 < (tokens + 1) as real
  }

  /** The usage that a settled stream reports: what was reported to it, or else an estimate. */
  ghost predicate Reports(u: Usage, es: seq<Event>, out: seq<Chunk>, window: int) {
    match LastMetrics(es)
    case Some(reported) => u == reported
    case None => TokensOf(u.completion, TextLength(out)) && ShareOf(u.prompt, LastPercentage(es), window)
  }

  /** What the state remembers for the finish. */
  ghost predicate Remembers(s: State, es: seq<Event>) {
    s.percentage == LastPercentage(es) && (!s.finishEmitted ==> s.usage == LastMetrics(es))
  }

  lemma RemembersStep(s: State, window: int, es: seq<Event>, e: Event)
    requires Remembers(s, es) && !s.failed && !Handle(s, window, e).failed
    ensures Remembers(Handle(s, window, e), es + [e])
  {
    assert (es + [e])[..|es|] == es;
    TurnNotes(s, e);
    SettleNotes(Turn(s, e), window);
    hide Turn, Settle, Finals, Ends, Skips;
  }

  lemma {:induction false} RemembersRun(window: int, es: seq<Event>)
    requires !Run(window, es).failed
    ensures Remembers(Run(window, es), es)
  {
    if es != [] {
      hide Remembers, Handle;
      var init, e := es[..|es| - 1], es[|es| - 1];
      RunUnfailed(window, es);
      RemembersRun(window, init);
      RemembersStep(Run(window, init), window, init, e);
      assert es == init + [e];
    }
  }

  lemma FinalReports(s: State, es: seq<Event>, out: seq<Chunk>, window: int)
    requires s.percentage == LastPercentage(es) && s.usage == LastMetrics(es) && s.contentLength == TextLength(out)
    ensures FinalUsage(s, window).Some? && Reports(FinalUsage(s, window).value, es, out, window)
  {
    hide TextLength, LastPercentage, LastMetrics;
    if s.usage.None? {
      var share := s.percentage * window as real / 100.0;
      assert share.Floor as real <= share < (share.Floor + 1) as real;
    }
  }

  lemma SettleLeaves(s: State, window: int)
    ensures Settle(s, window).contentLength == s.contentLength
  {
  }

  /** One event, seen from the states before it, before it is settled, and behind it. */
  ghost predicate Sends(s: State, t: State, u: State, e: Event, window: int) {
    && Noted(s, t, e) && u.hasToolCalls == t.hasToolCalls && u.contentLength == t.contentLength
    && (u.finishEmitted == t.finishEmitted ==> Finals(u.out) == Finals(t.out))
    && (u.finishEmitted != t.finishEmitted ==>
          u.finishEmitted && Finals(u.out) == Finals(t.out) + [Finish(t.hasToolCalls, FinalUsage(t, window))])
  }

  lemma StepSends(s: State, window: int, e: Event)
    requires !s.failed && !Handle(s, window, e).failed
    ensures Sends(s, Turn(s, e), Handle(s, window, e), e, window)
  {
    TurnNotes(s, e);
    SettleNotes(Turn(s, e), window);
    SettleLeaves(Turn(s, e), window);
    hide Turn, Settle, Finals, Ends, Skips, Noted;
  }

  /** The turn settles exactly if metering and context usage have now come first. */
  lemma SettlesWhen(s: State, t: State, u: State, e: Event, window: int, es: seq<Event>)
    requires Sends(s, t, u, e, window) && FinishOk(s, es) && FinishOk(u, es + [e])
    ensures u.finishEmitted != t.finishEmitted <==> MeteredFirst(es + [e]) && !MeteredFirst(es)
    ensures u.finishEmitted != t.finishEmitted ==> !e.MessageStop? && !t.finishEmitted
    ensures u.hasToolCalls == t.hasToolCalls == HasTools(es + [e])
    ensures e.MessageStop? ==> s.hasToolCalls == HasTools(es + [e])
  {
    Arrived(es, e);
    hide Finals, Ends, Stops, MeteredFirst, HasMetering, HasContext, HasTools;
  }

  lemma FinalsAre(s: State, t: State, u: State, e: Event, window: int, tools: bool, settled: bool)
    requires Sends(s, t, u, e, window) && t.hasToolCalls == tools && (e.MessageStop? ==> s.hasToolCalls == tools)
    requires settled <==> u.finishEmitted != t.finishEmitted
    ensures Finals(u.out) == Finals(s.out) + (if e.MessageStop? then [Finish(tools, None)] else [])
                                           + (if settled then [Finish(tools, FinalUsage(t, window))] else [])
  {
    hide Finals, Ends;
    assert Finals(s.out) + [] == Finals(s.out);
  }

  lemma RunMore(window: int, es: seq<Event>, e: Event)
    requires !Run(window, es + [e]).failed
    ensures !Run(window, es).failed && Run(window, es + [e]) == Handle(Run(window, es), window, e)
  {
    hide Handle;
    assert (es + [e])[..|es|] == es;
    RunUnfailed(window, es + [e]);
  }

  /** The finish chunks that one more event sends, in any stream that has not failed. A stop sends one
      without usage; the event with which metering and context usage have come before any stop sends one
      with usage. Each says tool calls if and only if a tool use has come. */
  lemma FinishSent(window: int, es: seq<Event>, e: Event) returns (u: Usage)
    requires !Run(window, es + [e]).failed
    ensures var was, now := Run(window, es).out, Run(window, es + [e]).out;
            var settled := MeteredFirst(es + [e]) && !MeteredFirst(es);
            var tools := exists n :: 0 <= n < |es + [e]| && (es + [e])[n].ToolUses?;
            && Finals(now) == Finals(was) + (if e.MessageStop? then [Finish(tools, None)] else [])
                                          + (if settled then [Finish(tools, Some(u))] else [])
            && (settled ==> Reports(u, es + [e], now, window))
  {
    var all := es + [e];
    var s, v := Run(window, es), Run(window, all);
    var t := Turn(s, e);
    hide Run, Turn, Handle, Sends, FinishOk, MeteredFirst, HasTools, Finals, Remembers, Reports, FinalUsage, TextLength;
    RunMore(window, es, e);
    StepSends(s, window, e);
    FinishRun(window, es);
    FinishRun(window, all);
    SettlesWhen(s, t, v, e, window, es);
    ToolsCame(all);
    var settled := MeteredFirst(all) && !MeteredFirst(es);
    FinalsAre(s, t, v, e, window, HasTools(all), settled);
    u := Usage(0, 0);
    if settled {
      RemembersRun(window, es);
      Remembered(s, window, es, e);
      LengthRun(window, es, e);
      FinalReports(t, all, v.out, window);
      u := FinalUsage(t, window).value;
    }
  }

  lemma LengthRun(window: int, es: seq<Event>, e: Event)
    requires !Run(window, es + [e]).failed
    ensures Turn(Run(window, es), e).contentLength == TextLength(Run(window, es + [e]).out)
  {
    RunMore(window, es, e);
    RoleOnce(window, es + [e]);
    StepSends(Run(window, es), window, e);
    hide Run, Turn, Handle, Filter, TextLength, Noted, Finals;
  }

  lemma Remembered(s: State, window: int, es: seq<Event>, e: Event)
    requires Remembers(s, es)
    ensures var t := Turn(s, e);
            t.percentage == LastPercentage(es + [e]) && (!t.finishEmitted ==> t.usage == LastMetrics(es + [e]))
  {
    assert (es + [e])[..|es|] == es;
    TurnNotes(s, e);
    hide Turn, Finals, Ends;
  }

  lemma ToolsCame(es: seq<Event>)
    ensures HasTools(es) <==> exists n :: 0 <= n < |es| && es[n].ToolUses?
  {
    if n :| 0 <= n < |es| && es[n].ToolUses? { assert es[n] in es; }
  }

  /** And those of the flush: one without usage, if none has been sent. */
  lemma FinishFlushed(window: int, es: seq<Event>)
    requires !Run(window, es).failed
    ensures var was, now := Run(window, es).out, Flush(Run(window, es)).out;
            var tools := exists n :: 0 <= n < |es| && es[n].ToolUses?;
            Finals(now) == if Finals(was) == [] then [Finish(tools, None)] else Finals(was)
  {
    FinishRun(window, es);
    FlushNotes(Run(window, es));
    ToolsCame(es);
    hide Run, Flush, Finals, Ends, Stops, MeteredFirst, HasMetering, HasContext, HasTools;
  }
}
