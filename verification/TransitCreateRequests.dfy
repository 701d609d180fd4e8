/** What the requests of the transit create modal carry, field by field, and that it is what the page showed at
    the click. */
module TransitCreateRequests {
  import opened Text
  import opened Listing
  import opened Ports
  import opened TransitCreate
  import opened TransitCreateSafety
  import opened TransitCreateTheorems

  // ---------------------------------------------------------------- what a click captures

  /** A server the form offers. */
  predicate Offered(r: Resource) {
    && r.resourceType == "server"
    && (r.status == "active" || r.workerOnline || r.displayStatus in {"online", "worker_online"})
  }

  /** The captured resource is the one the form names if that is offered, else the first offered one. */
  ghost predicate ResourceShown(s: State, id: Option<string>) {
    if id.None? then forall r :: r in s.resources ==> !Offered(r)
    else exists i: nat :: ResourceAt(s, id.value, i)
  }

  predicate ResourceAt(s: State, id: string, i: nat) {
    PickedAt(s.resources, (r: Resource) => Offered(r), (r: Resource) => r.id == s.form.resourceId, i)
    && s.resources[i].id == id
  }

  /** The captured node is the active one the form names, else the first active one; target port and host are
      that node's own. */
  ghost predicate NodeShown(s: State, id: Option<string>, targetPort: int, targetHost: string) {
    if id.None? then targetPort == 0 && targetHost == "" && forall n :: n in s.nodes ==> n.status != "active"
    else exists i: nat :: NodeAt(s, id.value, targetPort, targetHost, i)
  }

  predicate NodeAt(s: State, id: string, targetPort: int, targetHost: string, i: nat) {
    && PickedAt(s.nodes, (n: Node) => n.status == "active", (n: Node) => n.id == s.form.nodeId, i)
    && s.nodes[i].id == id
    && targetPort == (if s.nodes[i].port.Some? then s.nodes[i].port.value else 0)
    && targetHost == (if s.nodes[i].vpsIp.Some? then s.nodes[i].vpsIp.value else "")
  }

  /** The route name of a socat route is the one typed, that of an HAProxy route follows the port; the display
      name is the one typed. A blank name falls back to the default one. */
  predicate NamesShown(form: RouteForm, routeName: string, displayName: string) {
    var port := if Blank(form.listenPort) then "23843" else Trim(form.listenPort);
    && routeName == (if form.forwarding == HaproxyTcp then "haproxy-tcp-" + port
                     else if Blank(form.routeName) then "hk-socat-live-23843" else Trim(form.routeName))
    && displayName == (if Blank(form.routeName) then routeName else Trim(form.routeName))
  }

  /** The captured values are what the page shows. */
  ghost predicate ShownAt(s: State, c: Selection) {
    && ResourceShown(s, c.resourceId)
    && NodeShown(s, c.nodeId, c.targetPort, c.targetHost)
    && c.listenPort == ParsePortTransit(s.form.listenPort)
    && NamesShown(s.form, c.routeName, c.displayName)
    && c.forwarding == s.form.forwarding && c.firewallConfirmed == s.form.firewallConfirmed && c.routes == s.routes
  }

  lemma RenderedResource(s: State)
    ensures ResourceShown(s, Rendered(s).resourceId)
  {
    var offered, wanted := (r: Resource) => Offered(r), (r: Resource) => r.id == s.form.resourceId;
    var i := SelectionIsPicked(s.resources, offered, wanted);
    assert Filter(s.resources, offered) == SelectableResources(s) by {
      SameFilter(s.resources, offered, (r: Resource) => Selectable(r));
    }
    if Rendered(s).resourceId.Some? {
      assert ResourceAt(s, Rendered(s).resourceId.value, i);
    }
  }

  lemma {:induction false} SameFilter<T>(xs: seq<T>, keep: T -> bool, same: T -> bool)
    requires forall x :: x in xs ==> keep(x) == same(x)
    ensures Filter(xs, keep) == Filter(xs, same)
  {
    if xs != [] {
      SameFilter(xs[..|xs| - 1], keep, same);
    }
  }

  lemma RenderedNode(s: State)
    ensures var c := Rendered(s); NodeShown(s, c.nodeId, c.targetPort, c.targetHost)
  {
    var c := Rendered(s);
    var offered, wanted := (n: Node) => n.status == "active", (n: Node) => n.id == s.form.nodeId;
    var i := SelectionIsPicked(s.nodes, offered, wanted);
    if c.nodeId.Some? {
      assert NodeAt(s, c.nodeId.value, c.targetPort, c.targetHost, i);
    }
  }

  /** What a render hands to its handlers is what it shows. */
  lemma RenderedIsShown(s: State)
    ensures ShownAt(s, Rendered(s))
  {
    RenderedResource(s);
    RenderedNode(s);
  }

  // ---------------------------------------------------------------- when a click starts a flow

  /** No shown route of this resource that is active or being created uses the port. */
  predicate PortIsFree(s: State, resourceId: string, port: int) {
    forall r :: r in s.routes && r.resourceId == resourceId && r.listenPort == port && !r.deleted ==>
      r.status != "active" && r.status != "creating"
  }

  lemma PortIsFreeIff(s: State, resourceId: string, port: int)
    ensures NoConflict(s.routes, resourceId, port) <==> PortIsFree(s, resourceId, port)
  {
  }

  /** The form is complete: a name, a resource, a node with a port, a port text that is a free port, and the
      firewall box ticked. */
  predicate FormComplete(s: State, c: Selection) {
    && !Blank(s.form.routeName)
    && c.resourceId.Some? && c.nodeId.Some? && c.targetPort > 0
    && c.listenPort.Some? && PortIsFree(s, c.resourceId.value, c.listenPort.value)
    && s.form.firewallConfirmed
  }

  lemma SubmitEnabledIff(s: State)
    ensures SubmitEnabled(s) <==> s.modalOpen && (s.step == Idle || s.step == Failed) && FormComplete(s, Rendered(s))
  {
    var c := Rendered(s);
    assert c.routes == s.routes && c.firewallConfirmed == s.form.firewallConfirmed;
    if c.resourceId.Some? && c.listenPort.Some? {
      PortIsFreeIff(s, c.resourceId.value, c.listenPort.value);
    }
  }

  lemma SubmitAddsFlow(s: State)
    ensures var c, t := Rendered(s), Apply(s, Submit);
      if SubmitEnabled(s) then Started(s, t, c) && t.flows[|s.flows|].kind == CreateFlow else t == s
  {
  }

  /** A submit starts a flow exactly when the modal is open and idle or failed and the form is complete. */
  lemma SubmitStartsIff(s: State)
    ensures var c, t := Rendered(s), Apply(s, Submit);
      && ShownAt(s, c)
      && if s.modalOpen && (s.step == Idle || s.step == Failed) && FormComplete(s, c)
         then Started(s, t, c) && t.flows[|s.flows|].kind == CreateFlow else t == s
  {
    RenderedIsShown(s);
    SubmitEnabledIff(s);
    SubmitAddsFlow(s);
  }

  /** One flow more, with these values. */
  predicate Started(s: State, t: State, c: Selection) {
    |t.flows| == |s.flows| + 1 && t.flows[..|s.flows|] == s.flows && t.flows[|s.flows|].cap == c
  }

  lemma ConfirmAddsFlow(s: State)
    ensures var c, t := Rendered(s), Apply(s, Confirm);
      if s.modalOpen && s.step == RealCreateConfirm && s.context.Some? && !s.executionLoading
      then Started(s, t, c) && t.flows[|s.flows|].kind == ConfirmFlow(s.context.value) else t == s
  {
  }

  /** A confirm starts a flow exactly when the confirm step shows with a context and no execution is loading. */
  lemma ConfirmStartsIff(s: State)
    ensures var c, t := Rendered(s), Apply(s, Confirm);
      && ShownAt(s, c)
      && if s.modalOpen && s.step == RealCreateConfirm && s.context.Some? && !s.executionLoading
         then Started(s, t, c) && t.flows[|s.flows|].kind == ConfirmFlow(s.context.value) else t == s
  {
    RenderedIsShown(s);
    ConfirmAddsFlow(s);
  }

  /** Event `k` is the click that started flow `i`, and the page showed then what the flow captured. */
  ghost predicate ClickedAt(events: seq<Event>, i: nat, k: nat)
    requires i < |Run(events).flows|
  {
    && k < |events| && |Run(events[..k]).flows| == i
    && (if Run(events).flows[i].kind.ConfirmFlow? then events[k] == Confirm else events[k] == Submit)
    && ShownAt(Run(events[..k]), Run(events).flows[i].cap)
  }

  lemma OthersAddNoFlow(s: State, e: Event)
    requires !e.Submit? && !e.Confirm?
    ensures |Apply(s, e).flows| == |s.flows|
  {
  }

  lemma NewFlowIsRendered(s: State, e: Event)
    requires |Apply(s, e).flows| > |s.flows|
    ensures |Apply(s, e).flows| == |s.flows| + 1
    ensures var f := Apply(s, e).flows[|s.flows|];
      (if f.kind.ConfirmFlow? then e == Confirm else e == Submit) && f.cap == Rendered(s)
  {
    if e.Submit? {
      SubmitAddsFlow(s);
    } else if e.Confirm? {
      ConfirmAddsFlow(s);
    } else {
      OthersAddNoFlow(s, e);
    }
  }

  lemma NewFlowIsClicked(s: State, e: Event)
    requires |Apply(s, e).flows| > |s.flows|
    ensures |Apply(s, e).flows| == |s.flows| + 1
    ensures var f := Apply(s, e).flows[|s.flows|];
      (if f.kind.ConfirmFlow? then e == Confirm else e == Submit) && ShownAt(s, f.cap)
  {
    NewFlowIsRendered(s, e);
    RenderedIsShown(s);
  }

  lemma ClickStays(events: seq<Event>, e: Event, i: nat, k: nat)
    requires i < |Run(events).flows| && ClickedAt(events, i, k)
    ensures i < |Run(events + [e]).flows| && ClickedAt(events + [e], i, k)
  {
    RunSnoc(events, e);
    HistoryOnlyGrows(Run(events), e, i);
    assert (events + [e])[..k] == events[..k];
  }

  lemma ClickIsLast(events: seq<Event>, e: Event)
    requires |Run(events + [e]).flows| > |Run(events).flows|
    ensures |Run(events + [e]).flows| == |Run(events).flows| + 1
    ensures ClickedAt(events + [e], |Run(events).flows|, |events|)
  {
    RunSnoc(events, e);
    NewFlowIsClicked(Run(events), e);
    assert (events + [e])[..|events|] == events;
  }

  lemma LastEvent(events: seq<Event>)
    requires events != []
    ensures events == events[..|events| - 1] + [events[|events| - 1]]
  {
  }

  lemma FreshRunHasNoFlow()
    ensures Run([]).flows == []
  {
  }

  /** Every flow of every run holds what the page showed at its click, whatever was edited or loaded since. */
  lemma {:induction false} FlowHoldsWhatWasShown(events: seq<Event>, i: nat) returns (k: nat)
    requires i < |Run(events).flows|
    ensures ClickedAt(events, i, k)
  {
    if events == [] {
      FreshRunHasNoFlow();
      assert false;
    } else {
      LastEvent(events);
      k := FlowAfter(events[..|events| - 1], events[|events| - 1], i);
    }
  }

  lemma {:induction false} FlowAfter(before: seq<Event>, e: Event, i: nat) returns (k: nat)
    requires i < |Run(before + [e]).flows|
    ensures ClickedAt(before + [e], i, k)
    decreases |before|
  {
    if i < |Run(before).flows| {
      FreshRunHasNoFlow();
      LastEvent(before);
      k := FlowAfter(before[..|before| - 1], before[|before| - 1], i);
      ClickStays(before, e, i, k);
    } else {
      ClickIsLast(before, e);
      k := |before|;
    }
  }

  // ---------------------------------------------------------------- what the requests carry

  /** A request of a create flow names the resource, node, ports, method and names the flow captured; an
      approval request also the dry-run it is about. */
  predicate NamesCaptured(q: Request, f: Flow) {
    var c := f.cap;
    match q
    case Readiness(_, _, _, _) =>
      && Some(q.resourceId) == c.resourceId && Some(q.nodeId) == c.nodeId
      && Some(q.listenPort) == c.listenPort && q.targetPort == c.targetPort
    case DryRunCreate(_, _, _, _, _, _, _) =>
      && Some(q.resourceId) == c.resourceId && Some(q.nodeId) == c.nodeId
      && Some(q.listenPort) == c.listenPort && q.targetHost == c.targetHost && q.targetPort == c.targetPort
      && q.routeName == c.routeName && q.displayName == c.displayName
    case FinalApproval(_, _, _, _, _, _, _, _, _) =>
      && Some(q.resourceId) == c.resourceId && Some(q.nodeId) == c.nodeId
      && Some(q.listenPort) == c.listenPort && q.targetHost == c.targetHost && q.targetPort == c.targetPort
      && q.routeName == c.routeName
      && |f.trail| > 3 && f.trail[3].SawDryRun?
      && q.dryRunCommandId == f.trail[3].dryRun.commandId && q.serviceName == f.trail[3].dryRun.serviceName
      && q.displayName == (if f.trail[3].dryRun.routeDisplayName.Some? then f.trail[3].dryRun.routeDisplayName.value
                           else c.displayName)
    case Preflight(_, _, _, _, _) =>
      && Some(q.resourceId) == c.resourceId && Some(q.nodeId) == c.nodeId
      && Some(q.listenPort) == c.listenPort && q.targetPort == c.targetPort && q.forwarding == c.forwarding
    case CreateRoute(_, _, _, _, _, _, _) =>
      && Some(q.resourceId) == c.resourceId && Some(q.nodeId) == c.nodeId
      && Some(q.listenPort) == c.listenPort && q.targetHost == c.targetHost && q.targetPort == c.targetPort
      && q.forwarding == c.forwarding && q.routeName == c.routeName
    case RealExecution(_, _, _, _, _, _, _, _) => NamesContext(q, f)
    case ExportLink(_) => true
  }

  /** A real-execution request names the resource, node and dry-run of the context and the values approved. */
  predicate NamesContext(q: Request, f: Flow)
    requires q.RealExecution?
  {
    && f.kind.ConfirmFlow?
    && var x := f.kind.context;
    && q.resourceId == x.resourceId && q.nodeId == x.nodeId && q.dryRunCommandId == x.dryRun.commandId
    && q.listenPort == x.approval.listenPort && q.targetHost == x.approval.targetHost
    && q.targetPort == x.approval.targetPort && q.routeName == x.approval.routeName
    && q.optionalDisplayName == (if x.approval.routeDisplayName.Some? then x.approval.routeDisplayName
                                 else x.dryRun.routeDisplayName)
  }

  predicate SentAt(events: seq<Event>, i: nat, a: nat) {
    i < |Run(events).flows| && a < |Run(events).flows[i].trail| && Run(events).flows[i].trail[a].Sent?
  }

  lemma ScriptNamesCaptured(f: Flow, a: nat)
    requires Script(f) && (f.kind.CreateFlow? ==> Submittable(f.cap)) && a < |f.trail| && f.trail[a].Sent?
    ensures NamesCaptured(f.trail[a].request, f)
  {
  }

  /** Every request of every run carries what its flow captured or was approved for, each value in its own
      field. */
  lemma RequestsNameTheCapture(events: seq<Event>, i: nat, a: nat)
    requires SentAt(events, i, a)
    ensures var f := Run(events).flows[i]; NamesCaptured(f.trail[a].request, f)
  {
    RunKeeps(events);
    assert FlowOk(Run(events).flows[i]);
    ScriptNamesCaptured(Run(events).flows[i], a);
  }

  /** What a request was checked for: a socat create repeats the five values of the preflight that succeeded
      before it, an HAProxy dry-run those of the readiness request found ready, and its approval request the
      values of the dry-run that succeeded. */
  predicate RepeatsCheck(t: seq<Act>, a: nat)
    requires a < |t| && t[a].Sent?
  {
    var q := t[a].request;
    match q
    case CreateRoute(_, _, _, _, _, _, _) =>
      && a == 3 && t[0].Sent? && t[0].request.Preflight? && t[1].SawCommand?
      && t[2] == SawTerminal(t[1].id, "succeeded")
      && var p := t[0].request;
      && q.resourceId == p.resourceId && q.nodeId == p.nodeId && q.listenPort == p.listenPort
      && q.targetPort == p.targetPort && q.forwarding == p.forwarding
    case DryRunCreate(_, _, _, _, _, _, _) =>
      && a == 2 && t[0].Sent? && t[0].request.Readiness? && t[1] == SawReadiness(true, false)
      && var p := t[0].request;
      && q.resourceId == p.resourceId && q.nodeId == p.nodeId && q.listenPort == p.listenPort
      && q.targetPort == p.targetPort
    case FinalApproval(_, _, _, _, _, _, _, _, _) =>
      && a == 5 && t[2].Sent? && t[2].request.DryRunCreate? && t[3].SawDryRun?
      && t[4] == SawTerminal(q.dryRunCommandId, "succeeded") && q.dryRunCommandId == t[3].dryRun.commandId
      && var p := t[2].request;
      && q.resourceId == p.resourceId && q.nodeId == p.nodeId && q.listenPort == p.listenPort
      && q.targetHost == p.targetHost && q.targetPort == p.targetPort && q.routeName == p.routeName
    case _ => true
  }

  lemma ScriptRepeatsCheck(f: Flow, a: nat)
    requires Script(f) && a < |f.trail| && f.trail[a].Sent?
    ensures RepeatsCheck(f.trail, a)
  {
  }

  /** In every run, what is asked for is what was checked just before. */
  lemma RequestsRepeatTheCheck(events: seq<Event>, i: nat, a: nat)
    requires SentAt(events, i, a)
    ensures RepeatsCheck(Run(events).flows[i].trail, a)
  {
    RunKeeps(events);
    assert FlowOk(Run(events).flows[i]);
    ScriptRepeatsCheck(Run(events).flows[i], a);
  }

  /** Every request of a flow carries what the flow captured or was approved for, and repeats its check. */
  predicate CarriesCapture(f: Flow) {
    forall a :: 0 <= a < |f.trail| && f.trail[a].Sent? ==>
      NamesCaptured(f.trail[a].request, f) && RepeatsCheck(f.trail, a)
  }

  lemma ScriptCarriesCapture(f: Flow)
    requires Script(f) && (f.kind.CreateFlow? ==> Submittable(f.cap))
    ensures CarriesCapture(f)
  {
    forall a | 0 <= a < |f.trail| && f.trail[a].Sent?
      ensures NamesCaptured(f.trail[a].request, f) && RepeatsCheck(f.trail, a)
    {
      ScriptNamesCaptured(f, a);
      ScriptRepeatsCheck(f, a);
    }
  }

  /** The route a flow found has the captured resource, node, ports and method, is active and not deleted. */
  predicate IsWhatWasLookedFor(c: Selection, r: Route) {
    && c.resourceId == Some(r.resourceId) && c.nodeId == Some(r.nodeId) && c.listenPort == Some(r.listenPort)
    && r.targetPort == c.targetPort
    && r.forwardingMethod == (if c.forwarding == HaproxyTcp then "haproxy_tcp" else "socat")
    && r.status == "active" && !r.deleted
  }

  /** What is looked for is exactly that. */
  lemma LooksForIff(c: Selection, r: Route)
    ensures Created(c, r) <==> IsWhatWasLookedFor(c, r)
  {
  }
}
