/** Two runs that export a link the confirm flow did not create. In one the form is edited between the final
    approval and the confirm click, and the link belongs to another route than the one the real-execution
    request asked for. In the other the list fetch fails after the create command succeeded, and the link
    belongs to a route that was on screen before the click. */
module TransitCreateWitnesses {
  import opened Text
  import opened Listing
  import opened TransitCreate
  import opened TransitCreateTheorems
  import Ports

  const RESOURCE: Resource := Resource("a", "server", "active", "", false, false)
  const NODE: Node := Node("n", "active", Some("h"), Some(443))
  const DRY_RUN: DryRun := DryRun("d", None, "s")
  const APPROVAL: Approval := Approval(true, false, 23843, "h", 443, "r", None)
  const CONTEXT: Context := Context(0, "a", "n", DRY_RUN, APPROVAL)
  const SOCAT_ROUTE: Route := Route("x", "a", "n", 23843, 443, "socat", "active", false)

  const OLD_ROUTE: Route := Route("old", "a", "n", 23843, 443, "haproxy_tcp", "active", false)

  function FilledForm(m: Forwarding): RouteForm {
    RouteForm(DefaultRouteName(m, DEFAULT_LISTEN_PORT), "a", "n", DEFAULT_LISTEN_PORT, m, true)
  }

  /** The page with its lists loaded, the modal open and the form filled in. */
  predicate Filled(s: State, m: Forwarding) {
    && s.modalOpen && s.resources == [RESOURCE] && s.nodes == [NODE] && s.pending == {}
    && s.form == FilledForm(m)
  }

  predicate AtConfirm(s: State, m: Forwarding) {
    && Filled(s, m) && s.step == RealCreateConfirm && s.context == Some(CONTEXT) && !s.executionLoading
    && |s.flows| == 1
  }

  /** Flow `i` of the page exported a route other than the one its real-execution request asked for. */
  predicate ExportedAnother(s: State, i: nat) {
    && i < |s.flows| && |s.flows[i].trail| == 5
    && var t := s.flows[i].trail;
    && t[0].Sent? && t[0].request.RealExecution? && t[3].FoundRoute?
    && t[4] == Sent(ExportLink(t[3].route.id))
    && !AskedFor(t[3].route, t[0].request)
  }

  lemma DefaultPortReads()
    ensures Ports.ParsePortTransit(DEFAULT_LISTEN_PORT) == Some(23843)
  {
    assert Ports.Decimal(2) == "2";
    assert Ports.Decimal(23) == "23";
    assert Ports.Decimal(238) == "238";
    assert Ports.Decimal(2384) == "2384";
    assert Ports.Decimal(23843) == "23843";
    Ports.PrintedPortReadsBack(23843);
  }

  lemma RenderedWhenFilled(s: State, m: Forwarding)
    requires Filled(s, m)
    ensures var c := Rendered(s);
      && c.resourceId == Some("a") && c.nodeId == Some("n") && c.listenPort == Some(23843)
      && c.targetPort == 443 && c.targetHost == "h" && c.forwarding == m && c.firewallConfirmed && c.routes == s.routes
  {
    DefaultPortReads();
    assert RESOURCE in s.resources && NODE in s.nodes;
    assert SelectableResources(s) == [RESOURCE];
    assert ActiveNodes(s) == [NODE];
  }

  lemma ActiveIsShown()
    ensures !Deleted("active")
  {
    assert LowerText("active")[0] == 'a';
  }

  predicate Listed(s: State) {
    s.resources == [RESOURCE] && s.nodes == [NODE] && s.routes == [] && s.pending == {} && s.flows == []
  }

  lemma ListsLoad()
    ensures Listed(Apply(Init(), Loaded(Lists(Some([RESOURCE]), Some([NODE]), Some([])))))
  {
    ActiveIsShown();
    var s := WithLists(Init(), Lists(Some([RESOURCE]), Some([NODE]), Some([])));
    assert s.resources == [RESOURCE];
    assert s.nodes == [NODE];
    assert s.routes == [];
  }

  lemma ModalOpens(s: State)
    requires Listed(s)
    ensures var o := Apply(s, Open("a", "n"));
            Listed(o) && o.modalOpen && o.step == Idle && o.form == EMPTY_FORM.(resourceId := "a", nodeId := "n")
  {
    assert RESOURCE in s.resources && NODE in s.nodes;
    assert SelectableResources(s) == [RESOURCE];
    assert ActiveNodes(s) == [NODE];
  }

  lemma FormFills(s: State)
    requires Listed(s) && s.modalOpen && s.step == Idle && s.form == EMPTY_FORM.(resourceId := "a", nodeId := "n")
    ensures var o := Apply(Apply(s, Change(EditForwarding(HaproxyTcp))), Change(EditFirewall(true)));
            Filled(o, HaproxyTcp) && o.step == Idle && o.flows == [] && o.routes == []
  {
  }

  lemma SubmitStarts(s: State)
    requires Filled(s, HaproxyTcp) && s.step == Idle && s.flows == [] && s.routes == []
    ensures var o := Apply(s, Submit);
      && Filled(o, HaproxyTcp) && !o.executionLoading && o.routes == []
      && o.flows == [Flow(CreateFlow, Rendered(s), AwaitCsrf, [], [PreflightCreate])]
  {
    RenderedWhenFilled(s, HaproxyTcp);
    assert !Blank(s.form.routeName) by {
      TrimKeepsLetter(s.form.routeName);
    }
  }

  lemma TrimKeepsLetter(name: string)
    requires |name| > 0 && !IsSpace(name[0])
    ensures !Blank(name)
  {
    TrimEndBoundary(name);
  }

  /** Resuming flow `i` away from a list load changes that flow and leaves the lists and the form alone. */
  lemma ResumeTouchesFlow(s: State, i: nat, answer: Answer, m: Forwarding)
    requires i < |s.flows| && Filled(s, m) && !s.flows[i].pc.AwaitLists?
    ensures var o := Apply(s, Resume(i, answer));
      && Filled(o, m) && o.routes == s.routes && o.flows == s.flows[i := Advance(s.flows[i], answer, s.pending)]
      && (s.flows[i].kind.CreateFlow? ==> o.executionLoading == s.executionLoading)
  {
  }

  /** The page while its only flow, an HAProxy create flow for the filled form, waits at `pc`. */
  predicate Waits(s: State, pc: Pc) {
    && Filled(s, HaproxyTcp) && s.routes == [] && !s.executionLoading && |s.flows| == 1
    && s.flows[0].kind.CreateFlow? && s.flows[0].pc == pc
    && s.flows[0].cap.resourceId == Some("a") && s.flows[0].cap.nodeId == Some("n")
    && s.flows[0].cap.forwarding == HaproxyTcp
  }

  lemma WaitsNext(s: State, pc: Pc, answer: Answer, next: Pc)
    requires Waits(s, pc) && !pc.AwaitLists?
    requires var g := Advance(s.flows[0], answer, s.pending);
             g.pc == next && g.cap == s.flows[0].cap && g.kind == s.flows[0].kind
    ensures Waits(Apply(s, Resume(0, answer)), next)
  {
    ResumeTouchesFlow(s, 0, answer, HaproxyTcp);
  }

  lemma CsrfToReadiness(s: State)
    requires Waits(s, AwaitCsrf)
    ensures Waits(Apply(s, Resume(0, CsrfToken)), AwaitReadiness)
  {
    WaitsNext(s, AwaitCsrf, CsrfToken, AwaitReadiness);
  }

  lemma ReadinessToDryRun(s: State)
    requires Waits(s, AwaitReadiness)
    ensures Waits(Apply(s, Resume(0, ReadinessIs(true, false))), AwaitDryRun)
  {
    WaitsNext(s, AwaitReadiness, ReadinessIs(true, false), AwaitDryRun);
  }

  lemma DryRunToRead(s: State)
    requires Waits(s, AwaitDryRun)
    ensures Waits(Apply(s, Resume(0, DryRunIs(DRY_RUN))), AwaitRead(DryRunCommand(DRY_RUN), "d", 0))
  {
    WaitsNext(s, AwaitDryRun, DryRunIs(DRY_RUN), AwaitRead(DryRunCommand(DRY_RUN), "d", 0));
  }

  lemma ReadToApproval(s: State)
    requires Waits(s, AwaitRead(DryRunCommand(DRY_RUN), "d", 0))
    ensures Waits(Apply(s, Resume(0, StatusIs("succeeded"))), AwaitApproval(DRY_RUN))
  {
    assert AfterRead(s.flows[0], DryRunCommand(DRY_RUN), "d", 0, StatusIs("succeeded"))
        == AfterTerminal(s.flows[0], DryRunCommand(DRY_RUN), "d", "succeeded");
    WaitsNext(s, AwaitRead(DryRunCommand(DRY_RUN), "d", 0), StatusIs("succeeded"), AwaitApproval(DRY_RUN));
  }

  lemma ApprovalToConfirm(s: State)
    requires Waits(s, AwaitApproval(DRY_RUN))
    ensures var o := Apply(s, Resume(0, ApprovalIs(APPROVAL))); AtConfirm(o, HaproxyTcp) && o.routes == []
  {
    ResumeTouchesFlow(s, 0, ApprovalIs(APPROVAL), HaproxyTcp);
    var g := AfterApproval(s.flows[0], APPROVAL);
    assert g.steps[|g.steps| - 1] == RealCreateConfirm;
  }

  /** Switching the forwarding method leaves the approved context in place. */
  lemma Switches(s: State)
    requires AtConfirm(s, HaproxyTcp)
    ensures AtConfirm(Apply(s, Change(EditForwarding(Socat))), Socat)
  {
  }

  lemma ConfirmAddsFlow(s: State, m: Forwarding)
    requires AtConfirm(s, m)
    ensures var o := Apply(s, Confirm);
      Filled(o, m) && o.flows == s.flows + [Flow(ConfirmFlow(CONTEXT), Rendered(s), AwaitCsrf, [], [CommandCreate])]
  {
    assert ConfirmEnabled(s);
  }

  lemma ConfirmStarts(s: State, m: Forwarding)
    requires AtConfirm(s, m)
    ensures Confirming(Apply(s, Confirm), m, s.routes, AwaitCsrf, [])
  {
    ConfirmAddsFlow(s, m);
    RenderedWhenFilled(s, m);
    var o := Apply(s, Confirm);
    assert o.flows[1] == Flow(ConfirmFlow(CONTEXT), Rendered(s), AwaitCsrf, [], [CommandCreate]);
  }

  /** The confirm flow waits at `pc`; its click saw the filled form and these routes. */
  predicate Confirming(s: State, m: Forwarding, routes: seq<Route>, pc: Pc, trail: seq<Act>) {
    && Filled(s, m) && |s.flows| == 2
    && var f := s.flows[1];
    && f.kind == ConfirmFlow(CONTEXT) && f.pc == pc && f.trail == trail
    && f.cap.resourceId == Some("a") && f.cap.nodeId == Some("n") && f.cap.listenPort == Some(23843)
    && f.cap.targetPort == 443 && f.cap.forwarding == m && f.cap.routes == routes
  }

  lemma ConfirmingNext(s: State, m: Forwarding, routes: seq<Route>, pc: Pc, trail: seq<Act>, answer: Answer, next: Pc,
                       acts: seq<Act>)
    requires Confirming(s, m, routes, pc, trail) && !pc.AwaitLists?
    requires var g := Advance(s.flows[1], answer, s.pending);
             g.pc == next && g.trail == trail + acts && g.cap == s.flows[1].cap && g.kind == s.flows[1].kind
    ensures Confirming(Apply(s, Resume(1, answer)), m, routes, next, trail + acts)
  {
    ResumeTouchesFlow(s, 1, answer, m);
  }

  lemma Ran(events: seq<Event>, e: Event) returns (more: seq<Event>)
    ensures Run(more) == Apply(Run(events), e)
  {
    more := events + [e];
    RunSnoc(events, e);
  }

  lemma ConfirmSends(events: seq<Event>, m: Forwarding, rs: seq<Route>) returns (more: seq<Event>)
    requires Confirming(Run(events), m, rs, AwaitCsrf, [])
    ensures Confirming(Run(more), m, rs, AwaitRealExecution, [Sent(RealExecutionOf(CONTEXT))])
  {
    ConfirmingNext(Run(events), m, rs, AwaitCsrf, [], CsrfToken, AwaitRealExecution, [Sent(RealExecutionOf(CONTEXT))]);
    more := Ran(events, Resume(1, CsrfToken));
  }

  lemma ConfirmWaits(events: seq<Event>, m: Forwarding, rs: seq<Route>, t: seq<Act>) returns (more: seq<Event>)
    requires Confirming(Run(events), m, rs, AwaitRealExecution, t)
    ensures Confirming(Run(more), m, rs, AwaitRead(CreateCommand, "c", 0), t + [SawCommand("c")])
  {
    ConfirmingNext(Run(events), m, rs, AwaitRealExecution, t, CommandIs("c"), AwaitRead(CreateCommand, "c", 0),
                   [SawCommand("c")]);
    more := Ran(events, Resume(1, CommandIs("c")));
  }

  lemma ConfirmReads(events: seq<Event>, m: Forwarding, rs: seq<Route>, t: seq<Act>) returns (more: seq<Event>)
    requires Confirming(Run(events), m, rs, AwaitRead(CreateCommand, "c", 0), t)
    ensures Confirming(Run(more), m, rs, AwaitLists, t + [SawTerminal("c", "succeeded")])
  {
    var s := Run(events);
    assert AfterRead(s.flows[1], CreateCommand, "c", 0, StatusIs("succeeded"))
        == AfterTerminal(s.flows[1], CreateCommand, "c", "succeeded");
    ConfirmingNext(s, m, rs, AwaitRead(CreateCommand, "c", 0), t, StatusIs("succeeded"), AwaitLists,
                   [SawTerminal("c", "succeeded")]);
    more := Ran(events, Resume(1, StatusIs("succeeded")));
  }

  const CREATED: seq<Act> := [Sent(RealExecutionOf(CONTEXT)), SawCommand("c"), SawTerminal("c", "succeeded")]

  /** From the confirm click until the create command has succeeded. */
  lemma CreateSucceeds(before: seq<Event>, m: Forwarding, rs: seq<Route>) returns (events: seq<Event>)
    requires Confirming(Run(before), m, rs, AwaitCsrf, [])
    ensures Confirming(Run(events), m, rs, AwaitLists, CREATED)
  {
    var t := [Sent(RealExecutionOf(CONTEXT))];
    events := ConfirmSends(before, m, rs);
    events := ConfirmWaits(events, m, rs, t);
    t := t + [SawCommand("c")];
    events := ConfirmReads(events, m, rs, t);
    assert t + [SawTerminal("c", "succeeded")] == CREATED;
  }

  /** A resume with lists in which, or among the captured routes if none were fetched, the flow finds `r`. */
  lemma ConfirmFinds(s: State, m: Forwarding, rs: seq<Route>, lists: Lists, r: Route)
    requires Confirming(s, m, rs, AwaitLists, CREATED)
    requires FindCreated(s.flows[1].cap, LoadedRoutes(s.flows[1], lists, s.pending)) == Some(r)
    ensures var o := Apply(s, Resume(1, ListsAre(lists)));
      |o.flows| == 2 && o.flows[1].trail == CREATED + [FoundRoute(r), Sent(ExportLink(r.id))]
  {
    FoundIsExported(s.flows[1], lists, s.pending, r);
    ResumeMovesFlow(s, 1, ListsAre(lists));
  }

  lemma FoundIsExported(f: Flow, lists: Lists, pending: set<string>, r: Route)
    requires f.pc.AwaitLists? && f.trail == CREATED && FindCreated(f.cap, LoadedRoutes(f, lists, pending)) == Some(r)
    ensures Advance(f, ListsAre(lists), pending).trail == CREATED + [FoundRoute(r), Sent(ExportLink(r.id))]
  {
    assert CREATED + [FoundRoute(r)] + [Sent(ExportLink(r.id))] == CREATED + [FoundRoute(r), Sent(ExportLink(r.id))];
  }

  lemma ResumeMovesFlow(s: State, i: nat, answer: Answer)
    requires i < |s.flows|
    ensures Apply(s, Resume(i, answer)).flows == s.flows[i := Advance(s.flows[i], answer, s.pending)]
  {
  }

  lemma ConfirmFindsFetched(s: State)
    requires Confirming(s, Socat, [], AwaitLists, CREATED)
    ensures FindCreated(s.flows[1].cap, LoadedRoutes(s.flows[1], Lists(None, None, Some([SOCAT_ROUTE])), s.pending))
            == Some(SOCAT_ROUTE)
  {
    ActiveIsShown();
    assert VisibleRoutes([SOCAT_ROUTE], s.pending) == [SOCAT_ROUTE];
    assert Created(s.flows[1].cap, SOCAT_ROUTE);
    assert SOCAT_ROUTE in [SOCAT_ROUTE];
  }

  lemma ConfirmFindsCaptured(s: State)
    requires Confirming(s, HaproxyTcp, [OLD_ROUTE], AwaitLists, CREATED)
    ensures FindCreated(s.flows[1].cap, LoadedRoutes(s.flows[1], Lists(None, None, None), s.pending)) == Some(OLD_ROUTE)
  {
    assert Created(s.flows[1].cap, OLD_ROUTE);
    assert OLD_ROUTE in [OLD_ROUTE];
  }

  lemma FormSubmitted() returns (events: seq<Event>)
    ensures Waits(Run(events), AwaitCsrf)
  {
    ListsLoad();
    events := Ran([], Loaded(Lists(Some([RESOURCE]), Some([NODE]), Some([]))));
    ModalOpens(Run(events));
    events := Ran(events, Open("a", "n"));
    FormFills(Run(events));
    events := Ran(events, Change(EditForwarding(HaproxyTcp)));
    events := Ran(events, Change(EditFirewall(true)));
    SubmitWaits(Run(events));
    events := Ran(events, Submit);
  }

  lemma SubmitWaits(s: State)
    requires Filled(s, HaproxyTcp) && s.step == Idle && s.flows == [] && s.routes == []
    ensures Waits(Apply(s, Submit), AwaitCsrf)
  {
    RenderedWhenFilled(s, HaproxyTcp);
    SubmitStarts(s);
  }

  lemma Approved(before: seq<Event>) returns (events: seq<Event>)
    requires Waits(Run(before), AwaitCsrf)
    ensures AtConfirm(Run(events), HaproxyTcp) && Run(events).routes == []
  {
    CsrfToReadiness(Run(before));
    events := Ran(before, Resume(0, CsrfToken));
    ReadinessToDryRun(Run(events));
    events := Ran(events, Resume(0, ReadinessIs(true, false)));
    DryRunToRead(Run(events));
    events := Ran(events, Resume(0, DryRunIs(DRY_RUN)));
    ReadToApproval(Run(events));
    events := Ran(events, Resume(0, StatusIs("succeeded")));
    ApprovalToConfirm(Run(events));
    events := Ran(events, Resume(0, ApprovalIs(APPROVAL)));
  }

  lemma FirstHalf() returns (events: seq<Event>)
    ensures AtConfirm(Run(events), HaproxyTcp) && Run(events).routes == []
  {
    events := FormSubmitted();
    events := Approved(events);
  }

  lemma SwitchAndConfirm(before: seq<Event>) returns (events: seq<Event>)
    requires AtConfirm(Run(before), HaproxyTcp) && Run(before).routes == []
    ensures Confirming(Run(events), Socat, [], AwaitCsrf, [])
  {
    Switches(Run(before));
    events := Ran(before, Change(EditForwarding(Socat)));
    ConfirmStarts(Run(events), Socat);
    events := Ran(events, Confirm);
  }

  /** From the confirm step to the export. */
  lemma SwitchesAndExports(before: seq<Event>) returns (events: seq<Event>)
    requires AtConfirm(Run(before), HaproxyTcp) && Run(before).routes == []
    ensures ExportedAnother(Run(events), 1)
  {
    events := SwitchAndConfirm(before);
    events := CreateSucceeds(events, Socat, []);
    ConfirmFindsFetched(Run(events));
    ConfirmFinds(Run(events), Socat, [], Lists(None, None, Some([SOCAT_ROUTE])), SOCAT_ROUTE);
    events := Ran(events, Resume(1, ListsAre(Lists(None, None, Some([SOCAT_ROUTE])))));
    assert "socat" != "haproxy_tcp";
  }

  /** There is a run that exports another route than the one requested. */
  lemma EditedFormExportsAnother()
    ensures exists events :: ExportedAnother(Run(events), 1)
  {
    var events := FirstHalf();
    events := SwitchesAndExports(events);
  }

  /** A list load at the confirm step; no conflict check stands between it and the confirm click. */
  lemma OldRouteLoads(s: State)
    requires AtConfirm(s, HaproxyTcp)
    ensures var o := Apply(s, Loaded(Lists(None, None, Some([OLD_ROUTE]))));
      AtConfirm(o, HaproxyTcp) && o.routes == [OLD_ROUTE]
  {
    ActiveIsShown();
    assert VisibleRoutes([OLD_ROUTE], s.pending) == [OLD_ROUTE];
  }

  lemma LoadAndConfirm(before: seq<Event>) returns (events: seq<Event>)
    requires AtConfirm(Run(before), HaproxyTcp)
    ensures Confirming(Run(events), HaproxyTcp, [OLD_ROUTE], AwaitCsrf, [])
  {
    OldRouteLoads(Run(before));
    events := Ran(before, Loaded(Lists(None, None, Some([OLD_ROUTE]))));
    ConfirmStarts(Run(events), HaproxyTcp);
    events := Ran(events, Confirm);
  }

  /** Flow `i` exported a route its click had already on screen, although the form still showed what was
      approved. */
  predicate ExportedOld(s: State, i: nat) {
    && i < |s.flows| && |s.flows[i].trail| == 5
    && var f := s.flows[i];
    && f.kind.ConfirmFlow? && FormShowsContext(f.cap, f.kind.context)
    && f.trail[3].FoundRoute? && f.trail[3].route in f.cap.routes
    && f.trail[4] == Sent(ExportLink(f.trail[3].route.id))
  }

  /** There is a run without any edit at the confirm step that exports a route older than its request. */
  lemma FailedFetchExportsOld()
    ensures exists events :: ExportedOld(Run(events), 1)
  {
    var events := FirstHalf();
    events := LoadAndConfirm(events);
    events := CreateSucceeds(events, HaproxyTcp, [OLD_ROUTE]);
    var f := Run(events).flows[1];
    ConfirmFindsCaptured(Run(events));
    ConfirmFinds(Run(events), HaproxyTcp, [OLD_ROUTE], Lists(None, None, None), OLD_ROUTE);
    HistoryOnlyGrows(Run(events), Resume(1, ListsAre(Lists(None, None, None))), 1);
    events := Ran(events, Resume(1, ListsAre(Lists(None, None, None))));
    assert Run(events).flows[1].cap == f.cap && Run(events).flows[1].kind == f.kind;
    assert ExportedOld(Run(events), 1);
  }
}
