/** The promises of the transit create modal, for every run of clicks, edits, loads and answers. */
module TransitCreateTheorems {
  import opened Text
  import opened TransitCreate
  import opened TransitCreateSafety

  /** Flow `g` asked for readiness and got it, dry-ran, saw that dry-run succeed, asked for the final
      approval and got it; `q` repeats its command id, resource and node, and the values approved. */
  predicate ApprovedRun(g: Flow, q: Request) {
    && q.RealExecution? && g.kind.CreateFlow? && g.pc.Done? && |g.trail| == 7
    && var t := g.trail;
    && t[0].Sent? && t[0].request.Readiness?
    && t[0].request.resourceId == q.resourceId && t[0].request.nodeId == q.nodeId
    && t[1] == SawReadiness(true, false)
    && t[2].Sent? && t[2].request.DryRunCreate?
    && t[2].request.resourceId == q.resourceId && t[2].request.nodeId == q.nodeId
    && t[3].SawDryRun? && t[3].dryRun.commandId == q.dryRunCommandId
    && t[4] == SawTerminal(q.dryRunCommandId, "succeeded")
    && t[5].Sent? && t[5].request.FinalApproval? && t[5].request.dryRunCommandId == q.dryRunCommandId
    && t[5].request.resourceId == q.resourceId && t[5].request.nodeId == q.nodeId
    && t[6].SawApproval? && t[6].approval.ready && !t[6].approval.blocked
    && q.listenPort == t[6].approval.listenPort && q.targetHost == t[6].approval.targetHost
    && q.targetPort == t[6].approval.targetPort && q.routeName == t[6].approval.routeName
  }

  /** Some flow before flow `i` is an approved run for `q`. */
  predicate ApprovedEarlier(flows: seq<Flow>, i: nat, q: Request) {
    exists g :: 0 <= g < |flows| && g < i && ApprovedRun(flows[g], q)
  }

  predicate ExecutionAt(s: State, i: nat, a: nat) {
    i < |s.flows| && a < |s.flows[i].trail| && s.flows[i].trail[a].Sent? && s.flows[i].trail[a].request.RealExecution?
  }

  predicate ExportAt(s: State, i: nat, a: nat) {
    i < |s.flows| && a < |s.flows[i].trail| && s.flows[i].trail[a].Sent? && s.flows[i].trail[a].request.ExportLink?
  }

  lemma ExecutionIsFirstActOfConfirm(f: Flow, a: nat)
    requires OnScript(f) && a < |f.trail| && f.trail[a].Sent? && f.trail[a].request.RealExecution?
    ensures f.kind.ConfirmFlow? && a == 0 && f.trail[0].request == RealExecutionOf(f.kind.context)
  {
  }

  lemma ContextIsApprovedRun(flows: seq<Flow>, x: Context)
    requires ContextOk(flows, x) && OnScript(flows[x.owner])
    ensures ApprovedRun(flows[x.owner], RealExecutionOf(x))
  {
  }

  lemma ConfirmedRequestIsApproved(flows: seq<Flow>, i: nat)
    requires i < |flows| && AllOk(flows) && Confirmed(flows) && flows[i].kind.ConfirmFlow?
    ensures ApprovedEarlier(flows, i, RealExecutionOf(flows[i].kind.context))
  {
    var x := flows[i].kind.context;
    assert FlowOk(flows[x.owner]);
    ContextIsApprovedRun(flows, x);
  }

  /** Every real-execution request repeats what one earlier, finished flow had dry-run and approved. */
  lemma RealExecutionIsApproved(events: seq<Event>, i: nat, a: nat)
    requires ExecutionAt(Run(events), i, a)
    ensures ApprovedEarlier(Run(events).flows, i, Run(events).flows[i].trail[a].request)
  {
    RunKeeps(events);
    var flows := Run(events).flows;
    assert FlowOk(flows[i]);
    ExecutionIsFirstActOfConfirm(flows[i], a);
    ConfirmedRequestIsApproved(flows, i);
  }

  /** One approved dry-run leads to at most one real-execution request: two requests from contexts of the
      same owner are the same request of the same flow. */
  lemma ApprovalIsUsedAtMostOnce(events: seq<Event>, i: nat, a: nat, j: nat, b: nat)
    requires ExecutionAt(Run(events), i, a) && ExecutionAt(Run(events), j, b)
    ensures var flows := Run(events).flows;
      && flows[i].kind.ConfirmFlow? && flows[j].kind.ConfirmFlow?
      && (flows[i].kind.context.owner == flows[j].kind.context.owner ==> i == j && a == b)
  {
    RunKeeps(events);
    var flows := Run(events).flows;
    assert FlowOk(flows[i]) && FlowOk(flows[j]);
    ExecutionIsFirstActOfConfirm(flows[i], a);
    ExecutionIsFirstActOfConfirm(flows[j], b);
  }

  /** While the confirm step shows with a context, no flow was ever confirmed from that context, although a
      confirm click does not clear it. */
  lemma ShownContextIsUnused(events: seq<Event>)
    ensures var s := Run(events);
            s.step == RealCreateConfirm && s.context.Some? ==>
              ContextOk(s.flows, s.context.value) && Unused(s.flows, s.context.value.owner)
  {
    RunKeeps(events);
  }

  /** One earlier, finished flow dry-ran and got approved what a confirm flow with this context will ask for,
      and no flow was confirmed from it yet. */
  predicate FreshlyApproved(flows: seq<Flow>, x: Context) {
    x.owner < |flows| && ApprovedRun(flows[x.owner], RealExecutionOf(x)) && Unused(flows, x.owner)
  }

  lemma ContextIsFreshlyApproved(s: State)
    requires Inv(s) && s.step == RealCreateConfirm && s.context.Some?
    ensures FreshlyApproved(s.flows, s.context.value)
  {
    assert FlowOk(s.flows[s.context.value.owner]);
    ContextIsApprovedRun(s.flows, s.context.value);
  }

  /** The flows after a confirm click: the same, or one more, with a freshly approved context. */
  predicate ConfirmStartsApproved(before: seq<Flow>, after: seq<Flow>) {
    after == before
    || (|after| == |before| + 1 && after[|before|].kind.ConfirmFlow?
        && FreshlyApproved(before, after[|before|].kind.context))
  }

  lemma ConfirmIsApproved(s: State)
    requires Inv(s)
    ensures ConfirmStartsApproved(s.flows, Apply(s, Confirm).flows)
  {
    if ConfirmEnabled(s) {
      ContextIsFreshlyApproved(s);
    }
  }

  /** Before act `a`, in order: the create command, its success, and the active route found for what the
      flow captured. */
  predicate CreatedBefore(f: Flow, a: nat) {
    && 3 <= a < |f.trail|
    && f.trail[a - 3].SawCommand?
    && f.trail[a - 2] == SawTerminal(f.trail[a - 3].id, "succeeded")
    && f.trail[a - 1].FoundRoute? && Created(f.cap, f.trail[a - 1].route)
    && f.trail[a] == Sent(ExportLink(f.trail[a - 1].route.id))
  }

  /** Before act `a`, in order: the preflight request, its command, its success, and the create request. */
  predicate PreflightBefore(f: Flow, a: nat) {
    && a == 7 && |f.trail| > 7
    && f.trail[0] == Sent(PreflightOf(f.cap))
    && f.trail[1].SawCommand?
    && f.trail[2] == SawTerminal(f.trail[1].id, "succeeded")
    && f.trail[3] == Sent(CreateOf(f.cap))
  }

  lemma ExportFollowsScript(f: Flow, a: nat)
    requires OnScript(f) && a < |f.trail| && f.trail[a].Sent? && f.trail[a].request.ExportLink?
    ensures CreatedBefore(f, a)
    ensures if f.kind.ConfirmFlow? then a == 4 && f.trail[0] == Sent(RealExecutionOf(f.kind.context))
            else f.cap.forwarding == Socat && PreflightBefore(f, a)
  {
  }

  /** A client link is requested only after, in that flow and in order, the create command succeeded and an
      active route for the captured resource, node, ports and method was found; and before that a socat flow
      saw its preflight succeed, a confirm flow sent a request some earlier flow had dry-run and approved. */
  lemma ExportIsJustified(events: seq<Event>, i: nat, a: nat)
    requires ExportAt(Run(events), i, a)
    ensures var s := Run(events);
            var f := s.flows[i];
      && CreatedBefore(f, a)
      && if f.kind.ConfirmFlow?
         then f.trail[0].Sent? && ApprovedEarlier(s.flows, i, f.trail[0].request)
         else f.cap.forwarding == Socat && PreflightBefore(f, a)
  {
    RunKeeps(events);
    var flows := Run(events).flows;
    assert FlowOk(flows[i]);
    ExportFollowsScript(flows[i], a);
    if flows[i].kind.ConfirmFlow? {
      RealExecutionIsApproved(events, i, 0);
    }
  }

  /** On the progress bar no flow goes back, except that a confirm flow starts at the create command right
      after its owner stopped at the confirm step. */
  lemma ProgressFallsBackOnlyAtConfirm(events: seq<Event>, i: nat)
    requires i < |Run(events).flows|
    ensures var flows := Run(events).flows;
            var f := flows[i];
      && Rising(f.IsHaproxy(), f.steps)
      && (f.kind.ConfirmFlow? ==>
            && f.kind.context.owner < i
            && var g := flows[f.kind.context.owner];
            && Rising(true, g.steps) && g.steps != [] && f.steps != []
            && ProgressIndex(true, f.steps[0]) < ProgressIndex(true, g.steps[|g.steps| - 1]))
  {
    RunKeeps(events);
    var flows := Run(events).flows;
    assert FlowOk(flows[i]);
    if flows[i].kind.ConfirmFlow? {
      assert FlowOk(flows[flows[i].kind.context.owner]);
    }
  }

  /** Because of the conflict check at submit, the list a create flow captured never matches what it looks
      for, so a route it exports was fetched after its command succeeded. */
  lemma CapturedListNeverMatches(c: Selection)
    requires Submittable(c)
    ensures FindCreated(c, c.routes) == None
  {
  }

  /** What a flow found to export is one of these routes. */
  predicate FoundAmong(g: Flow, routes: seq<Route>) {
    && |g.trail| >= 2 && g.trail[|g.trail| - 2].FoundRoute? && g.trail[|g.trail| - 2].route in routes
    && g.trail[|g.trail| - 1] == Sent(ExportLink(g.trail[|g.trail| - 2].route.id))
  }

  lemma ListsExportIff(f: Flow, lists: Lists, pending: set<string>)
    requires f.pc.AwaitLists?
    ensures var g := Advance(f, ListsAre(lists), pending);
            var routes := LoadedRoutes(f, lists, pending);
      && (g.pc.AwaitLink? <==> exists r :: r in routes && Created(f.cap, r))
      && if g.pc.AwaitLink? then FoundAmong(g, routes) else g == f.Failing()
  {
  }

  /** After a list fetch that failed, a flow looks at the list its click captured: a create flow exports
      nothing, and a confirm flow, whose click checks no conflict, exports a link exactly when a matching route
      was on screen at the click. */
  lemma FailedFetchExportsIff(events: seq<Event>, i: nat, lists: Lists)
    requires i < |Run(events).flows| && Run(events).flows[i].pc.AwaitLists? && lists.routes.None?
    ensures var s := Run(events);
            var f := s.flows[i];
            var g := Advance(f, ListsAre(lists), s.pending);
      && (g.pc.AwaitLink? <==> f.kind.ConfirmFlow? && exists r :: r in f.cap.routes && Created(f.cap, r))
      && if g.pc.AwaitLink? then FoundAmong(g, f.cap.routes) else g == f.Failing()
  {
    RunKeeps(events);
    var s := Run(events);
    var f := s.flows[i];
    assert FlowOk(f);
    ListsExportIff(f, lists, s.pending);
    if f.kind.CreateFlow? {
      CapturedListNeverMatches(f.cap);
    }
  }

  // ---------------------------------------------------------------- the route a confirm flow exports

  /** A route has the five fields a real-execution request asked for. It may be older than the request. */
  predicate AskedFor(r: Route, q: Request)
    requires q.RealExecution?
  {
    && r.resourceId == q.resourceId && r.nodeId == q.nodeId && r.listenPort == q.listenPort
    && r.targetPort == q.targetPort && r.forwardingMethod == "haproxy_tcp"
  }

  /** What the form shows is what the context was approved for. */
  predicate FormShowsContext(c: Selection, x: Context) {
    && c.resourceId == Some(x.resourceId) && c.nodeId == Some(x.nodeId)
    && c.listenPort == Some(x.approval.listenPort) && c.targetPort == x.approval.targetPort
    && c.forwarding == HaproxyTcp
  }

  /** The inputs stay editable while the confirm step shows, and the confirm flow looks for the route the
      form showed at the click: the exported route has the requested fields exactly when the form then still
      showed what was approved. */
  lemma ConfirmExportsRequestedIff(events: seq<Event>, i: nat)
    requires i < |Run(events).flows|
    requires var f := Run(events).flows[i]; f.kind.ConfirmFlow? && |f.trail| > 3
    ensures var f := Run(events).flows[i];
      && f.trail[0].Sent? && f.trail[0].request.RealExecution? && f.trail[3].FoundRoute?
      && (AskedFor(f.trail[3].route, f.trail[0].request) <==> FormShowsContext(f.cap, f.kind.context))
  {
    RunKeeps(events);
    var f := Run(events).flows[i];
    assert FlowOk(f);
    ConfirmRouteIff(f);
  }

  lemma ConfirmRouteIff(f: Flow)
    requires OnScript(f) && f.kind.ConfirmFlow? && |f.trail| > 3
    ensures f.trail[0] == Sent(RealExecutionOf(f.kind.context)) && f.trail[3].FoundRoute?
    ensures AskedFor(f.trail[3].route, f.trail[0].request) <==> FormShowsContext(f.cap, f.kind.context)
  {
    assert "socat" != "haproxy_tcp";
  }

  lemma RunSnoc(events: seq<Event>, e: Event)
    ensures Run(events + [e]) == Apply(Run(events), e)
  {
    assert (events + [e])[..|events|] == events;
  }

  // ---------------------------------------------------------------- history

  /** `g` continues `f`: acts are only added, the captured values stay, and a finished flow never changes. */
  predicate Continues(f: Flow, g: Flow) {
    f.trail <= g.trail && g.cap == f.cap && g.kind == f.kind && (f.pc.Done? ==> g == f)
  }

  lemma ReadContinues(f: Flow, p: Purpose, id: string, attempt: nat, answer: Answer)
    ensures f.trail <= AfterRead(f, p, id, attempt, answer).trail
    ensures AfterRead(f, p, id, attempt, answer).cap == f.cap && AfterRead(f, p, id, attempt, answer).kind == f.kind
  {
  }

  lemma AdvanceContinues(f: Flow, answer: Answer, pending: set<string>)
    ensures Continues(f, Advance(f, answer, pending))
  {
    if f.pc.AwaitRead? {
      ReadContinues(f, f.pc.purpose, f.pc.id, f.pc.attempt, answer);
    }
  }

  /** No event rewrites history. */
  lemma HistoryOnlyGrows(s: State, e: Event, i: nat)
    requires i < |s.flows|
    ensures i < |Apply(s, e).flows| && Continues(s.flows[i], Apply(s, e).flows[i])
  {
    if e.Resume? && e.i < |s.flows| {
      AdvanceContinues(s.flows[e.i], e.answer, s.pending);
    }
  }
}
