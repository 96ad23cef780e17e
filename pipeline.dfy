/** doChain after resolution: the filter chain, then pre-handle, the handlers
    and post-handle inside a try block, and after-completion in its finally
    block. Plugin code is a parameter; a run is the trace of hook calls it
    makes and how the dispatch ends. */
module Pipeline {
  import opened ThingsTypes
  import opened Resolution

  /** The interceptor and handler hooks doChain calls; AfterCompletion
      carries the exception it passes (null is None). */
  datatype Hook = PreHandle | Handle | PostHandle | AfterCompletion(error: Option<Thrown>)

  datatype Event =
    | FilterChainRan(filters: seq<Registration>)
    | Invoked(hook: Hook, plugin: Registration)

  /** How ThingsFiltering.Chain.doFilter ends: after the last filter, with a
      filter that did not pass the request on, or by throwing. The first two
      both return normally to doChain. */
  datatype FilterResult = ReachedEnd | ShortCircuited | FilterThrew(thrown: Thrown)

  /** preHandle returns a boolean or throws. */
  datatype PreHandleResult = Answered(proceed: bool) | PreHandleThrew(thrown: Thrown)

  /** ThingsFiltering.Chain run over the resolved filters. */
  type FilterChain = seq<Registration> -> FilterResult

  /** What interceptor and handler code does in this dispatch. handle,
      postHandle and afterCompletion return normally (None) or throw. */
  datatype Plugins = Plugins(
    preHandle: Registration -> PreHandleResult,
    handle: Registration -> Option<Thrown>,
    postHandle: Registration -> Option<Thrown>,
    afterCompletion: (Registration, Option<Thrown>) -> Option<Thrown>)

  datatype Outcome = Completed | Raised(failure: Failure)

  /** The hook calls of one dispatch, in order, and how it ends. */
  datatype Run = Run(trace: seq<Event>, outcome: Outcome)

  /** A loop's hook calls and the Throwable that ended it early, if any. */
  datatype Partial = Partial(events: seq<Event>, thrown: Option<Thrown>)

  /** interceptorPreHandle's hook calls and its answer. */
  datatype Gate = Gate(events: seq<Event>, result: PreHandleResult)

  /** One call of `hook` on each plugin of `rs`, in order. */
  function Calls(rs: seq<Registration>, hook: Hook): seq<Event> {
    seq(|rs|, i requires 0 <= i < |rs| => Invoked(hook, rs[i]))
  }

  /** Calling a hook other than preHandle on one plugin. */
  function Step(p: Plugins, hook: Hook, r: Registration): Option<Thrown>
    requires !hook.PreHandle?
  {
    match hook
    case Handle => p.handle(r)
    case PostHandle => p.postHandle(r)
    case AfterCompletion(e) => p.afterCompletion(r, e)
  }

  /** The first `n` plugins of `rs` returned normally from `hook`. */
  predicate ReturnedBefore(p: Plugins, hook: Hook, rs: seq<Registration>, n: int)
    requires !hook.PreHandle? && n <= |rs|
  {
    forall j :: 0 <= j < n ==> Step(p, hook, rs[j]).None?
  }

  /** The first `n` interceptors of `ics` answered true. */
  predicate PassedBefore(p: Plugins, ics: seq<Registration>, n: int)
    requires n <= |ics|
  {
    forall j :: 0 <= j < n ==> p.preHandle(ics[j]) == Answered(true)
  }

  /** A for loop over `rs` calling `hook` (the handlers' forEach,
      interceptorPostHandle, interceptorAfterCompletion): it calls a prefix of
      `rs`, the whole of it when every call returns, and stops right after
      the first call that throws. */
  function RunEach(p: Plugins, hook: Hook, rs: seq<Registration>): (r: Partial)
    requires !hook.PreHandle?
    ensures |r.events| <= |rs| && r.events == Calls(rs[..|r.events|], hook)
    ensures r.thrown.None? ==> |r.events| == |rs| && ReturnedBefore(p, hook, rs, |rs|)
    ensures r.thrown.Some? ==>
      && r.events != []
      && ReturnedBefore(p, hook, rs, |r.events| - 1)
      && r.thrown == Step(p, hook, rs[|r.events| - 1])
    decreases |rs|
  {
    if rs == [] then Partial([], None)
    else
      var first := Invoked(hook, rs[0]);
      match Step(p, hook, rs[0])
      case Some(t) =>
        assert Calls(rs[..1], hook) == [first];
        Partial([first], Some(t))
      case None =>
        var rest := RunEach(p, hook, rs[1..]);
        assert Calls(rs[..|rest.events| + 1], hook) == [first] + Calls(rs[1..][..|rest.events|], hook);
        Partial([first] + rest.events, rest.thrown)
  }

  /** interceptorPreHandle: calls preHandle on a prefix of the interceptors,
      all of them when each answers true, and stops right after the first
      that answers false or throws. */
  function PreHandles(p: Plugins, ics: seq<Registration>): (r: Gate)
    ensures |r.events| <= |ics| && r.events == Calls(ics[..|r.events|], PreHandle)
    ensures r.result == Answered(true) ==> |r.events| == |ics| && PassedBefore(p, ics, |ics|)
    ensures r.result != Answered(true) ==>
      && r.events != []
      && PassedBefore(p, ics, |r.events| - 1)
      && r.result == p.preHandle(ics[|r.events| - 1])
    decreases |ics|
  {
    if ics == [] then Gate([], Answered(true))
    else
      var first := Invoked(PreHandle, ics[0]);
      var answer := p.preHandle(ics[0]);
      if answer == Answered(true) then
        var rest := PreHandles(p, ics[1..]);
        assert Calls(ics[..|rest.events| + 1], PreHandle) == [first] + Calls(ics[1..][..|rest.events|], PreHandle);
        Gate([first] + rest.events, rest.result)
      else
        assert Calls(ics[..1], PreHandle) == [first];
        Gate([first], answer)
  }

  /** The try block: pre-handle (returning early on false), every handler,
      then post-handle; the Throwable that leaves it, if any. */
  function TryBlock(p: Plugins, interceptors: seq<Registration>, handlers: seq<Registration>): (r: Partial)
    ensures PassedBefore(p, interceptors, |interceptors|) && r.thrown.None? ==>
      r.events == Calls(interceptors, PreHandle) + Calls(handlers, Handle) + Calls(interceptors, PostHandle)
  {
    assert interceptors[..|interceptors|] == interceptors && handlers[..|handlers|] == handlers;
    var pre := PreHandles(p, interceptors);
    match pre.result
    case PreHandleThrew(t) => Partial(pre.events, Some(t))
    case Answered(proceed) =>
      if !proceed then Partial(pre.events, None)
      else
        var handled := RunEach(p, Handle, handlers);
        if handled.thrown.Some? then Partial(pre.events + handled.events, handled.thrown)
        else
          var post := RunEach(p, PostHandle, interceptors);
          Partial(pre.events + handled.events + post.events, post.thrown)
  }

  /** catch (Exception e): what the `exception` variable holds when the
      finally block runs; a java.lang.Error is not caught, so it stays null. */
  function Captured(thrown: Option<Thrown>): Option<Thrown> {
    if thrown.Some? && thrown.value.isException then thrown else None
  }

  /** doFilterChain calls the filter chain only when there are filters. */
  function FilterEvents(v: ChainingValues): seq<Event> {
    if v.filters == [] then [] else [FilterChainRan(v.filters)]
  }

  function FilterStage(chain: FilterChain, v: ChainingValues): FilterResult {
    if v.filters == [] then ReachedEnd else chain(v.filters)
  }

  /** doChain after resolution, over the resolved chains `v`. A Throwable
      raised by afterCompletion leaves the finally block in place of the one
      pending from the try block. */
  function Pipeline(chain: FilterChain, p: Plugins, jtm: Message, v: ChainingValues): (r: Run)
    ensures r.outcome.Completed? ==> v.handlers != []
    ensures v.handlers != [] && v.filters != [] ==> r.trace != [] && r.trace[0] == FilterChainRan(v.filters)
  {
    if v.handlers == [] then
      Run([], Raised(ThingsException(jtm, SERVICE_UNAVAILABLE, NO_HANDLER_MESSAGE)))
    else
      match FilterStage(chain, v)
      case FilterThrew(t) => Run(FilterEvents(v), Raised(PluginThrew(t)))
      case _ =>
        var body := TryBlock(p, v.interceptors, v.handlers);
        var done := RunEach(p, AfterCompletion(Captured(body.thrown)), v.interceptors);
        var pending := if done.thrown.Some? then done.thrown else body.thrown;
        Run(FilterEvents(v) + body.events + done.events,
            if pending.Some? then Raised(PluginThrew(pending.value)) else Completed)
  }

  /** interceptorPreHandle: stops at the first interceptor whose preHandle
      answers false (or throws). */
  method InterceptorPreHandle(p: Plugins, interceptors: seq<Registration>)
    returns (events: seq<Event>, result: PreHandleResult)
    ensures Gate(events, result) == PreHandles(p, interceptors)
  {
    events := [];
    var i := 0;
    while i < |interceptors|
      invariant 0 <= i <= |interceptors|
      invariant events == Calls(interceptors[..i], PreHandle) && PassedBefore(p, interceptors, i)
    {
      var answer := p.preHandle(interceptors[i]);
      assert Calls(interceptors[..i + 1], PreHandle) == events + [Invoked(PreHandle, interceptors[i])];
      events := events + [Invoked(PreHandle, interceptors[i])];
      if answer != Answered(true) {
        StopsAtPreHandle(p, interceptors, i);
        return events, answer;
      }
      i := i + 1;
    }
    PassedAll(p, interceptors);
    assert interceptors[..i] == interceptors;
    result := Answered(true);
  }

  /** A for loop calling `hook` on each of `rs` until one throws. */
  method InvokeEach(p: Plugins, hook: Hook, rs: seq<Registration>)
    returns (events: seq<Event>, thrown: Option<Thrown>)
    requires !hook.PreHandle?
    ensures Partial(events, thrown) == RunEach(p, hook, rs)
  {
    events := [];
    var i := 0;
    while i < |rs|
      invariant 0 <= i <= |rs|
      invariant events == Calls(rs[..i], hook) && ReturnedBefore(p, hook, rs, i)
    {
      var outcome := Step(p, hook, rs[i]);
      assert Calls(rs[..i + 1], hook) == events + [Invoked(hook, rs[i])];
      events := events + [Invoked(hook, rs[i])];
      if outcome.Some? {
        StopsAtStep(p, hook, rs, i);
        return events, outcome;
      }
      i := i + 1;
    }
    ReturnedAll(p, hook, rs);
    assert rs[..i] == rs;
    thrown := None;
  }

  /** The try block of doChain. */
  method RunTryBlock(p: Plugins, interceptors: seq<Registration>, handlers: seq<Registration>)
    returns (events: seq<Event>, pending: Option<Thrown>)
    ensures Partial(events, pending) == TryBlock(p, interceptors, handlers)
  {
    var answer;
    events, answer := InterceptorPreHandle(p, interceptors);
    pending := None;
    if answer.PreHandleThrew? {
      pending := Some(answer.thrown);
    } else if answer.proceed {
      var handled, handleThrown := InvokeEach(p, Handle, handlers);
      events := events + handled;
      pending := handleThrown;
      if pending.None? {
        var posted, postThrown := InvokeEach(p, PostHandle, interceptors);
        events := events + posted;
        pending := postThrown;
      }
    }
  }

  /** doChain after resolution: the no-handler check, doFilterChain outside
      the try block, then the try block, its Exception handler and its
      finally block. */
  method Dispatch(chain: FilterChain, p: Plugins, jtm: Message, v: ChainingValues) returns (run: Run)
    ensures run == Pipeline(chain, p, jtm, v)
  {
    if v.handlers == [] {
      return Run([], Raised(ThingsException(jtm, SERVICE_UNAVAILABLE, NO_HANDLER_MESSAGE)));
    }
    var trace: seq<Event> := [];
    if v.filters != [] {
      trace := [FilterChainRan(v.filters)];
      var filtered := chain(v.filters);
      if filtered.FilterThrew? {
        return Run(trace, Raised(PluginThrew(filtered.thrown)));
      }
    }
    var body, pending := RunTryBlock(p, v.interceptors, v.handlers);
    trace := trace + body;
    // Only an Exception is recorded for afterCompletion; every Throwable is rethrown.
    var exception := if pending.Some? && pending.value.isException then pending else None;
    // The finally block.
    var completed, completionThrown := InvokeEach(p, AfterCompletion(exception), v.interceptors);
    trace := trace + completed;
    if completionThrown.Some? {
      pending := completionThrown;
    }
    run := Run(trace, if pending.Some? then Raised(PluginThrew(pending.value)) else Completed);
  }

  /** No hook runs at all exactly when no handler was resolved, and then the
      dispatch fails with SERVICE_UNAVAILABLE for the request's message. */
  lemma NoHandlerFails(chain: FilterChain, p: Plugins, jtm: Message, v: ChainingValues)
    ensures Pipeline(chain, p, jtm, v).trace == [] <==> v.handlers == []
    ensures v.handlers == [] ==>
      Pipeline(chain, p, jtm, v).outcome == Raised(ThingsException(jtm, SERVICE_UNAVAILABLE, NO_HANDLER_MESSAGE))
  {
    if v.handlers != [] && !FilterStage(chain, v).FilterThrew? && v.filters == [] {
      var pre := PreHandles(p, v.interceptors);
      if v.interceptors == [] {
        assert pre.result == Answered(true);
        assert RunEach(p, Handle, v.handlers).events != [];
      } else {
        assert pre.events != [];
      }
    }
  }

  /** A filter chain that throws ends the dispatch before the try block: no
      interceptor hook, handler or afterCompletion runs. */
  lemma FilterThrowSkipsCompletion(chain: FilterChain, p: Plugins, jtm: Message, v: ChainingValues, t: Thrown)
    requires v.handlers != [] && v.filters != []
    requires chain(v.filters) == FilterThrew(t)
    ensures Pipeline(chain, p, jtm, v) == Run([FilterChainRan(v.filters)], Raised(PluginThrew(t)))
  {
  }

  /** doChain cannot tell a filter chain that stopped early from one that ran
      to the end: both dispatches make the same hook calls and end alike. */
  lemma FilterShortCircuitIgnored(stopped: FilterChain, full: FilterChain, p: Plugins, jtm: Message, v: ChainingValues)
    requires v.filters != []
    requires stopped(v.filters) == ShortCircuited && full(v.filters) == ReachedEnd
    ensures Pipeline(stopped, p, jtm, v) == Pipeline(full, p, jtm, v)
  {
  }

  /** Nothing throws and every preHandle answers true: each interceptor's
      preHandle, then every handler, then each postHandle, then each
      afterCompletion with a null exception, in chain order. */
  lemma SuccessfulDispatch(chain: FilterChain, p: Plugins, jtm: Message, v: ChainingValues)
    requires v.handlers != [] && !FilterStage(chain, v).FilterThrew?
    requires PassedBefore(p, v.interceptors, |v.interceptors|)
    requires ReturnedBefore(p, Handle, v.handlers, |v.handlers|)
    requires ReturnedBefore(p, PostHandle, v.interceptors, |v.interceptors|)
    requires ReturnedBefore(p, AfterCompletion(None), v.interceptors, |v.interceptors|)
    ensures Pipeline(chain, p, jtm, v) == Run(
      FilterEvents(v) + Calls(v.interceptors, PreHandle) + Calls(v.handlers, Handle)
        + Calls(v.interceptors, PostHandle) + Calls(v.interceptors, AfterCompletion(None)),
      Completed)
  {
    var ics, hs := v.interceptors, v.handlers;
    PassedAll(p, ics);
    assert ics[..|ics|] == ics && hs[..|hs|] == hs;
  }

  /** The k-th interceptor's preHandle answers false: no later preHandle, no
      handler and no postHandle runs; every afterCompletion runs with null and
      the dispatch returns normally. */
  lemma PreHandleRejected(chain: FilterChain, p: Plugins, jtm: Message, v: ChainingValues, k: nat)
    requires v.handlers != [] && !FilterStage(chain, v).FilterThrew?
    requires k < |v.interceptors| && PassedBefore(p, v.interceptors, k)
    requires p.preHandle(v.interceptors[k]) == Answered(false)
    requires ReturnedBefore(p, AfterCompletion(None), v.interceptors, |v.interceptors|)
    ensures Pipeline(chain, p, jtm, v) == Run(
      FilterEvents(v) + Calls(v.interceptors[..k + 1], PreHandle)
        + Calls(v.interceptors, AfterCompletion(None)),
      Completed)
  {
    var ics := v.interceptors;
    StopsAtPreHandle(p, ics, k);
    assert ics[..|ics|] == ics;
  }

  /** The k-th handler throws t: no later handler and no postHandle runs;
      every afterCompletion receives t when it is an Exception (null for an
      Error), and t propagates. */
  lemma HandlerThrows(chain: FilterChain, p: Plugins, jtm: Message, v: ChainingValues, k: nat, t: Thrown)
    requires v.handlers != [] && !FilterStage(chain, v).FilterThrew?
    requires PassedBefore(p, v.interceptors, |v.interceptors|)
    requires k < |v.handlers| && ReturnedBefore(p, Handle, v.handlers, k)
    requires p.handle(v.handlers[k]) == Some(t)
    requires var e := if t.isException then Some(t) else None;
      ReturnedBefore(p, AfterCompletion(e), v.interceptors, |v.interceptors|)
    ensures var e := if t.isException then Some(t) else None;
      Pipeline(chain, p, jtm, v) == Run(
        FilterEvents(v) + Calls(v.interceptors, PreHandle) + Calls(v.handlers[..k + 1], Handle)
          + Calls(v.interceptors, AfterCompletion(e)),
        Raised(PluginThrew(t)))
  {
    var ics := v.interceptors;
    PassedAll(p, ics);
    StopsAtStep(p, Handle, v.handlers, k);
    assert ics[..|ics|] == ics;
  }

  /** The k-th interceptor's preHandle throws t: no later hook of the try
      block runs, afterCompletion receives t when it is an Exception, and t
      propagates. */
  lemma PreHandleThrows(chain: FilterChain, p: Plugins, jtm: Message, v: ChainingValues, k: nat, t: Thrown)
    requires v.handlers != [] && !FilterStage(chain, v).FilterThrew?
    requires k < |v.interceptors| && PassedBefore(p, v.interceptors, k)
    requires p.preHandle(v.interceptors[k]) == PreHandleThrew(t)
    requires var e := if t.isException then Some(t) else None;
      ReturnedBefore(p, AfterCompletion(e), v.interceptors, |v.interceptors|)
    ensures var e := if t.isException then Some(t) else None;
      Pipeline(chain, p, jtm, v) == Run(
        FilterEvents(v) + Calls(v.interceptors[..k + 1], PreHandle)
          + Calls(v.interceptors, AfterCompletion(e)),
        Raised(PluginThrew(t)))
  {
    var ics := v.interceptors;
    StopsAtPreHandle(p, ics, k);
    assert ics[..|ics|] == ics;
  }

  /** The k-th interceptor's postHandle throws t: no later postHandle runs,
      afterCompletion receives t when it is an Exception, and t propagates. */
  lemma PostHandleThrows(chain: FilterChain, p: Plugins, jtm: Message, v: ChainingValues, k: nat, t: Thrown)
    requires v.handlers != [] && !FilterStage(chain, v).FilterThrew?
    requires PassedBefore(p, v.interceptors, |v.interceptors|)
    requires ReturnedBefore(p, Handle, v.handlers, |v.handlers|)
    requires k < |v.interceptors| && ReturnedBefore(p, PostHandle, v.interceptors, k)
    requires p.postHandle(v.interceptors[k]) == Some(t)
    requires var e := if t.isException then Some(t) else None;
      ReturnedBefore(p, AfterCompletion(e), v.interceptors, |v.interceptors|)
    ensures var e := if t.isException then Some(t) else None;
      Pipeline(chain, p, jtm, v) == Run(
        FilterEvents(v) + Calls(v.interceptors, PreHandle) + Calls(v.handlers, Handle)
          + Calls(v.interceptors[..k + 1], PostHandle) + Calls(v.interceptors, AfterCompletion(e)),
        Raised(PluginThrew(t)))
  {
    var ics, hs := v.interceptors, v.handlers;
    PassedAll(p, ics);
    StopsAtStep(p, PostHandle, ics, k);
    assert ics[..|ics|] == ics && hs[..|hs|] == hs;
  }

  /** Once the filter stage returns normally and no afterCompletion throws,
      the dispatch ends with exactly one afterCompletion per interceptor, in
      chain order, each receiving the Exception captured from the try block,
      and no afterCompletion runs before them. */
  lemma CompletionGuaranteed(chain: FilterChain, p: Plugins, jtm: Message, v: ChainingValues)
    requires v.handlers != [] && !FilterStage(chain, v).FilterThrew?
    requires var e := Captured(TryBlock(p, v.interceptors, v.handlers).thrown);
      ReturnedBefore(p, AfterCompletion(e), v.interceptors, |v.interceptors|)
    ensures var run := Pipeline(chain, p, jtm, v);
      var e := Captured(TryBlock(p, v.interceptors, v.handlers).thrown);
      var n := |run.trace| - |v.interceptors|;
      && 0 <= n
      && run.trace[n..] == Calls(v.interceptors, AfterCompletion(e))
      && (forall i :: 0 <= i < n ==> !(run.trace[i].Invoked? && run.trace[i].hook.AfterCompletion?))
  {
    var ics := v.interceptors;
    var e := Captured(TryBlock(p, ics, v.handlers).thrown);
    var done := RunEach(p, AfterCompletion(e), ics);
    assert ics[..|ics|] == ics;
    var body := TryBlock(p, ics, v.handlers);
    var prefix := FilterEvents(v) + body.events;
    NoCompletionInTry(p, ics, v.handlers);
    var run := Pipeline(chain, p, jtm, v);
    assert run.trace == prefix + done.events;
    forall i | 0 <= i < |prefix|
      ensures !(run.trace[i].Invoked? && run.trace[i].hook.AfterCompletion?)
    {
      assert run.trace[i] == prefix[i];
      if i >= |FilterEvents(v)| {
        assert prefix[i] == body.events[i - |FilterEvents(v)|];
      }
    }
  }

  /** An afterCompletion that throws ends the finally block: the later
      interceptors' afterCompletion do not run, and its Throwable replaces any
      pending from the try block. */
  lemma CompletionThrowWins(chain: FilterChain, p: Plugins, jtm: Message, v: ChainingValues, k: nat, t: Thrown)
    requires v.handlers != [] && !FilterStage(chain, v).FilterThrew?
    requires var e := Captured(TryBlock(p, v.interceptors, v.handlers).thrown);
      && k < |v.interceptors|
      && ReturnedBefore(p, AfterCompletion(e), v.interceptors, k)
      && p.afterCompletion(v.interceptors[k], e) == Some(t)
    ensures var body := TryBlock(p, v.interceptors, v.handlers);
      Pipeline(chain, p, jtm, v) == Run(
        FilterEvents(v) + body.events + Calls(v.interceptors[..k + 1], AfterCompletion(Captured(body.thrown))),
        Raised(PluginThrew(t)))
  {
    var e := Captured(TryBlock(p, v.interceptors, v.handlers).thrown);
    StopsAtStep(p, AfterCompletion(e), v.interceptors, k);
  }

  /** Every interceptor answered true: pre-handle called them all. */
  lemma PassedAll(p: Plugins, ics: seq<Registration>)
    requires PassedBefore(p, ics, |ics|)
    ensures PreHandles(p, ics) == Gate(Calls(ics, PreHandle), Answered(true))
  {
    assert ics[..|ics|] == ics;
  }

  /** Every plugin returned: the loop called them all. */
  lemma ReturnedAll(p: Plugins, hook: Hook, rs: seq<Registration>)
    requires !hook.PreHandle? && ReturnedBefore(p, hook, rs, |rs|)
    ensures RunEach(p, hook, rs) == Partial(Calls(rs, hook), None)
  {
    assert rs[..|rs|] == rs;
  }

  /** Pre-handle stops at the first interceptor that does not answer true. */
  lemma StopsAtPreHandle(p: Plugins, ics: seq<Registration>, k: nat)
    requires k < |ics| && PassedBefore(p, ics, k)
    requires p.preHandle(ics[k]) != Answered(true)
    ensures PreHandles(p, ics) == Gate(Calls(ics[..k + 1], PreHandle), p.preHandle(ics[k]))
  {
  }

  /** A loop stops at the first plugin that throws. */
  lemma StopsAtStep(p: Plugins, hook: Hook, rs: seq<Registration>, k: nat)
    requires !hook.PreHandle?
    requires k < |rs| && ReturnedBefore(p, hook, rs, k)
    requires Step(p, hook, rs[k]).Some?
    ensures RunEach(p, hook, rs) == Partial(Calls(rs[..k + 1], hook), Step(p, hook, rs[k]))
  {
  }

  /** The try block makes no afterCompletion call. */
  lemma NoCompletionInTry(p: Plugins, ics: seq<Registration>, hs: seq<Registration>)
    ensures forall i :: 0 <= i < |TryBlock(p, ics, hs).events| ==>
      !TryBlock(p, ics, hs).events[i].hook.AfterCompletion?
  {
    var pre := PreHandles(p, ics);
    var handled := RunEach(p, Handle, hs);
    var post := RunEach(p, PostHandle, ics);
    var all := pre.events + handled.events + post.events;
    forall i | 0 <= i < |all| ensures !all[i].hook.AfterCompletion? {
      if i < |pre.events| {
        assert all[i] == pre.events[i];
      } else if i < |pre.events| + |handled.events| {
        assert all[i] == handled.events[i - |pre.events|];
      } else {
        assert all[i] == post.events[i - |pre.events| - |handled.events|];
      }
    }
  }
}
