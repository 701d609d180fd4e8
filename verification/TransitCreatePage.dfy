/** What the create modal shows: its form through edits, its lists through loads, and its step, route and link
    through the answers to a flow. */
module TransitCreatePage {
  import opened Text
  import opened Listing
  import opened TransitCreate
  import opened TransitCreateRequests
  import opened TransitCreateSafety
  import opened TransitCreateTheorems

  // ---------------------------------------------------------------- the form

  /** The name a form suggests. */
  function Suggested(m: Forwarding, listenPort: string): string {
    if m == Socat then "hk-socat-live-23843"
    else "haproxy-tcp-" + if Blank(listenPort) then "23843" else Trim(listenPort)
  }

  /** An edit writes its own input. The name follows the port while it is the suggested one; a new method
      always suggests its own. */
  lemma EditWritesItsInput(f: RouteForm, edit: Edit)
    ensures var g := Edited(f, edit);
      && g.resourceId == (if edit.EditResource? then edit.id else f.resourceId)
      && g.nodeId == (if edit.EditNode? then edit.id else f.nodeId)
      && g.listenPort == (if edit.EditListenPort? then edit.text else f.listenPort)
      && g.forwarding == (if edit.EditForwarding? then edit.forwarding else f.forwarding)
      && g.firewallConfirmed == (if edit.EditFirewall? then edit.checked else f.firewallConfirmed)
      && g.routeName == (if edit.EditName? then edit.text
                         else if edit.EditForwarding? then Suggested(edit.forwarding, f.listenPort)
                         else if edit.EditListenPort? && f.routeName == Suggested(f.forwarding, f.listenPort)
                         then Suggested(f.forwarding, edit.text)
                         else f.routeName)
  {
  }

  function EditedAll(f: RouteForm, edits: seq<Edit>): RouteForm {
    if edits == [] then f else Edited(EditedAll(f, edits[..|edits| - 1]), edits[|edits| - 1])
  }

  /** Until a name is typed, the name is the suggested one for the method and port shown, whatever else is
      edited. */
  lemma {:induction false} UntypedNameIsSuggested(f: RouteForm, edits: seq<Edit>)
    requires f.routeName == Suggested(f.forwarding, f.listenPort)
    requires forall k :: 0 <= k < |edits| ==> !edits[k].EditName?
    ensures var g := EditedAll(f, edits); g.routeName == Suggested(g.forwarding, g.listenPort)
  {
    if edits != [] {
      var n := |edits| - 1;
      UntypedNameIsSuggested(f, edits[..n]);
      EditWritesItsInput(EditedAll(f, edits[..n]), edits[n]);
    }
  }

  /** What an opened modal shows: the drafted resource and node if they are offered, else the first offered
      ones, the suggested name and port, socat, and the firewall box unticked. */
  ghost predicate FreshForm(s: State, draftResourceId: string, draftNodeId: string, f: RouteForm) {
    && (if exists r :: r in s.resources && Offered(r) then ResourceDrafted(s, draftResourceId, f.resourceId)
        else f.resourceId == "")
    && (if exists n :: n in s.nodes && n.status == "active" then NodeDrafted(s, draftNodeId, f.nodeId)
        else f.nodeId == "")
    && f.routeName == "hk-socat-live-23843" && f.listenPort == "23843" && f.forwarding == Socat && !f.firewallConfirmed
  }

  ghost predicate ResourceDrafted(s: State, draft: string, id: string) {
    exists i: nat :: ResourceDraftedAt(s, draft, id, i)
  }

  predicate ResourceDraftedAt(s: State, draft: string, id: string, i: nat) {
    PickedAt(s.resources, (r: Resource) => Offered(r), (r: Resource) => r.id == draft, i) && s.resources[i].id == id
  }

  ghost predicate NodeDrafted(s: State, draft: string, id: string) {
    exists i: nat :: NodeDraftedAt(s, draft, id, i)
  }

  predicate NodeDraftedAt(s: State, draft: string, id: string, i: nat) {
    PickedAt(s.nodes, (n: Node) => n.status == "active", (n: Node) => n.id == draft, i) && s.nodes[i].id == id
  }

  lemma OpenedResource(s: State, draft: string, draftNode: string)
    ensures var id := OpenForm(s, draft, draftNode).resourceId;
      if exists r :: r in s.resources && Offered(r) then ResourceDrafted(s, draft, id) else id == ""
  {
    var offered, wanted := (r: Resource) => Offered(r), (r: Resource) => r.id == draft;
    var i := SelectionIsPicked(s.resources, offered, wanted);
    SameFilter(s.resources, offered, (r: Resource) => Selectable(r));
    if exists r :: r in s.resources && Offered(r) {
      assert ResourceDraftedAt(s, draft, OpenForm(s, draft, draftNode).resourceId, i);
    }
  }

  lemma OpenedNode(s: State, draftResource: string, draft: string)
    ensures var id := OpenForm(s, draftResource, draft).nodeId;
      if exists n :: n in s.nodes && n.status == "active" then NodeDrafted(s, draft, id) else id == ""
  {
    var offered, wanted := (n: Node) => n.status == "active", (n: Node) => n.id == draft;
    var i := SelectionIsPicked(s.nodes, offered, wanted);
    if exists n :: n in s.nodes && n.status == "active" {
      assert NodeDraftedAt(s, draft, OpenForm(s, draftResource, draft).nodeId, i);
    }
  }

  /** Opening shows a fresh form and nothing of an earlier run. */
  lemma OpenShowsFreshForm(s: State, draftResourceId: string, draftNodeId: string)
    ensures var t := Apply(s, Open(draftResourceId, draftNodeId));
      && FreshForm(s, draftResourceId, draftNodeId, t.form)
      && t.modalOpen && t.step == Idle && t.context.None? && t.createdRoute.None? && t.link.None?
      && !t.executionLoading
      && t.resources == s.resources && t.nodes == s.nodes && t.routes == s.routes && t.flows == s.flows
  {
    OpenedResource(s, draftResourceId, draftNodeId);
    OpenedNode(s, draftResourceId, draftNodeId);
  }

  /** Closing shows nothing and leaves the default form behind; the flows go on. */
  lemma CloseShowsNothing(s: State)
    ensures var t := Apply(s, Close);
      if !s.modalOpen then t == s
      else
        && !t.modalOpen && t.form == RouteForm("hk-socat-live-23843", "", "", "23843", Socat, false)
        && t.step == Idle && t.context.None? && t.createdRoute.None? && t.link.None? && !t.executionLoading
        && t.resources == s.resources && t.nodes == s.nodes && t.routes == s.routes && t.pending == s.pending
        && t.flows == s.flows
  {
  }

  /** A submit that starts a flow shows its first step and nothing of an earlier run. */
  lemma SubmitClearsPage(s: State)
    ensures var t := Apply(s, Submit);
      |t.flows| > |s.flows| ==>
        && t.step == PreflightCreate && t.context.None? && t.createdRoute.None? && t.link.None?
        && !t.executionLoading
        && t.modalOpen == s.modalOpen && t.form == s.form && t.resources == s.resources && t.nodes == s.nodes
        && t.routes == s.routes && t.pending == s.pending
        && t.flows[|s.flows|] == Flow(CreateFlow, t.flows[|s.flows|].cap, AwaitCsrf, [], [PreflightCreate])
  {
  }

  /** A confirm that starts a flow locks the button and shows the create step; the context stays. */
  lemma ConfirmLocksPage(s: State)
    ensures var t := Apply(s, Confirm);
      |t.flows| > |s.flows| ==>
        && t.step == CommandCreate && t.executionLoading && t.context == s.context
        && t.createdRoute == s.createdRoute && t.link == s.link
        && t.modalOpen == s.modalOpen && t.form == s.form && t.resources == s.resources && t.nodes == s.nodes
        && t.routes == s.routes && t.pending == s.pending
        && t.flows[|s.flows|]
           == Flow(ConfirmFlow(s.context.value), t.flows[|s.flows|].cap, AwaitCsrf, [], [CommandCreate])
  {
  }

  // ---------------------------------------------------------------- the lists

  /** What a load leaves: every fetched list without its deleted entries, routes also without those whose delete
      is pending, in the order fetched; a list whose fetch failed stays. */
  ghost predicate Listed(s: State, lists: Lists, t: State) {
    && (if lists.resources.None? then t.resources == s.resources
        else forall r :: r in t.resources <==>
               r in lists.resources.value && LowerText(r.status) != "deleted" && !r.deleted)
    && (if lists.nodes.None? then t.nodes == s.nodes
        else forall n :: n in t.nodes <==> n in lists.nodes.value && LowerText(n.status) != "deleted")
    && (if lists.routes.None? then t.routes == s.routes
        else forall r :: r in t.routes <==>
               r in lists.routes.value && r.id !in s.pending && LowerText(r.status) != "deleted" && !r.deleted)
  }

  lemma LoadListsExactly(s: State, lists: Lists)
    ensures Listed(s, lists, WithLists(s, lists))
  {
  }

  lemma ListedBySame(s: State, lists: Lists, u: State, t: State)
    requires Listed(s, lists, u) && t.resources == u.resources && t.nodes == u.nodes && t.routes == u.routes
    ensures Listed(s, lists, t)
  {
  }

  lemma LoadedIsWithLists(s: State, lists: Lists)
    ensures Apply(s, Loaded(lists)) == WithLists(s, lists)
  {
  }

  /** A load outside the create flows. */
  lemma LoadedShows(s: State, lists: Lists)
    ensures Listed(s, lists, Apply(s, Loaded(lists)))
  {
    LoadListsExactly(s, lists);
    LoadedIsWithLists(s, lists);
    ListedBySame(s, lists, WithLists(s, lists), Apply(s, Loaded(lists)));
  }

  lemma RefreshIsWithLists(s: State, i: nat, lists: Lists)
    requires i < |s.flows| && s.flows[i].pc.AwaitLists?
    ensures var t, u := Apply(s, Resume(i, ListsAre(lists))), WithLists(s, lists);
      t.resources == u.resources && t.nodes == u.nodes && t.routes == u.routes
  {
  }

  /** The load inside a flow shows the same. */
  lemma RefreshShows(s: State, i: nat, lists: Lists)
    requires i < |s.flows| && s.flows[i].pc.AwaitLists?
    ensures Listed(s, lists, Apply(s, Resume(i, ListsAre(lists))))
  {
    LoadListsExactly(s, lists);
    RefreshIsWithLists(s, i, lists);
    ListedBySame(s, lists, WithLists(s, lists), Apply(s, Resume(i, ListsAre(lists))));
  }

  // ---------------------------------------------------------------- step, route and link

  /** The route a flow looks for is in the list it looks at: the first such route is shown, and its link is
      asked for. */
  ghost predicate ShowsFound(s: State, i: nat, routes: seq<Route>, t: State)
    requires i < |s.flows| && i < |t.flows|
  {
    var c := s.flows[i].cap;
    if exists r :: r in routes && IsWhatWasLookedFor(c, r) then
      && t.step == Exporting && t.createdRoute.Some?
      && (exists k: nat :: FoundAt(c, routes, t.createdRoute.value, k))
      && t.flows[i].trail == s.flows[i].trail + [FoundRoute(t.createdRoute.value)]
                             + [Sent(ExportLink(t.createdRoute.value.id))]
      && t.flows[i].pc.AwaitLink? && t.executionLoading == s.executionLoading
    else
      && t.step == Failed && t.createdRoute == s.createdRoute && t.flows[i].trail == s.flows[i].trail
      && t.flows[i].pc.Done? && t.executionLoading == (s.executionLoading && !s.flows[i].kind.ConfirmFlow?)
  }

  predicate FoundAt(c: Selection, routes: seq<Route>, r: Route, k: nat) {
    && k < |routes| && routes[k] == r && IsWhatWasLookedFor(c, r)
    && forall j :: 0 <= j < k ==> !IsWhatWasLookedFor(c, routes[j])
  }

  lemma FindCreatedIsFirst(c: Selection, routes: seq<Route>)
    ensures var r := FindCreated(c, routes);
      if r.None? then forall x :: x in routes ==> !IsWhatWasLookedFor(c, x)
      else exists k: nat :: FoundAt(c, routes, r.value, k)
  {
    forall x ensures Created(c, x) <==> IsWhatWasLookedFor(c, x) {
      LooksForIff(c, x);
    }
    var k := FindIsFirst(routes, (r: Route) => Created(c, r));
    if FindCreated(c, routes).Some? {
      assert FoundAt(c, routes, FindCreated(c, routes).value, k);
    }
  }

  lemma AdvancesToLists(f: Flow, lists: Lists, pending: set<string>)
    requires f.pc.AwaitLists?
    ensures Advance(f, ListsAre(lists), pending) == AfterLists(f, FindCreated(f.cap, LoadedRoutes(f, lists, pending)))
  {
  }

  lemma ShownAfterLists(s: State, i: nat, lists: Lists)
    requires i < |s.flows| && s.flows[i].pc.AwaitLists?
    ensures var t := Apply(s, Resume(i, ListsAre(lists)));
            var found := FindCreated(s.flows[i].cap, LoadedRoutes(s.flows[i], lists, s.pending));
      && |t.flows| == |s.flows| && t.flows[i] == AfterLists(s.flows[i], found)
      && t.step == (if found.Some? then Exporting else Failed)
      && t.createdRoute == (if found.Some? then found else s.createdRoute)
      && t.executionLoading == (s.executionLoading && (found.Some? || !s.flows[i].kind.ConfirmFlow?))
  {
    AdvancesToLists(s.flows[i], lists, s.pending);
    ShownOfLists(WithLists(s, lists), i, s.flows[i],
                 FindCreated(s.flows[i].cap, LoadedRoutes(s.flows[i], lists, s.pending)), lists);
  }

  lemma ShownOfLists(u: State, i: nat, f: Flow, found: Option<Route>, lists: Lists)
    requires i < |u.flows| && f.pc.AwaitLists?
    ensures var t := Shown(u, i, f, AfterLists(f, found), ListsAre(lists));
      && |t.flows| == |u.flows| && t.flows[i] == AfterLists(f, found)
      && t.step == (if found.Some? then Exporting else Failed)
      && t.createdRoute == (if found.Some? then found else u.createdRoute)
      && t.executionLoading == (u.executionLoading && (found.Some? || !f.kind.ConfirmFlow?))
  {
  }

  /** After the refresh, the page shows the created route exactly when it is in the list looked at: the one
      fetched, without deleted and pending routes, or the one the click captured when that fetch failed. */
  lemma RefreshShowsCreated(s: State, i: nat, lists: Lists)
    requires i < |s.flows| && s.flows[i].pc.AwaitLists?
    ensures var t := Apply(s, Resume(i, ListsAre(lists)));
      && |t.flows| == |s.flows|
      && ShowsFound(s, i, if lists.routes.Some? then t.routes else s.flows[i].cap.routes, t)
  {
    var routes := LoadedRoutes(s.flows[i], lists, s.pending);
    FindCreatedIsFirst(s.flows[i].cap, routes);
    ShownAfterLists(s, i, lists);
  }

  /** An exported link is shown with the complete step; a confirm flow ends its loading. */
  lemma LinkIsShown(s: State, i: nat, link: Option<string>)
    requires i < |s.flows| && s.flows[i].pc.AwaitLink?
    ensures var t := Apply(s, Resume(i, LinkIs(link)));
      && t.link == link && t.step == Complete && t.createdRoute == s.createdRoute
      && t.executionLoading == (s.executionLoading && !s.flows[i].kind.ConfirmFlow?)
  {
  }

  /** A passed final approval shows the confirm step with the context of its flow; nothing else writes one. */
  lemma ApprovalIsShown(s: State, i: nat, a: Answer)
    requires i < |s.flows|
    ensures var f, t := s.flows[i], Apply(s, Resume(i, a));
      if f.pc.AwaitApproval? && a.ApprovalIs? && a.approval.ready && !a.approval.blocked then
        && t.step == RealCreateConfirm && t.context.Some?
        && var x := t.context.value;
        && x.owner == i && x.dryRun == f.pc.dryRun && x.approval == a.approval
        && x.resourceId == (if f.cap.resourceId.Some? then f.cap.resourceId.value else "")
        && x.nodeId == (if f.cap.nodeId.Some? then f.cap.nodeId.value else "")
      else t.context == s.context
  {
  }

  /** What no answer touches: the modal, its form, the pending set, and outside a refresh the lists; link and
      route change only where they are found. */
  lemma AnswersLeaveTheRest(s: State, i: nat, a: Answer)
    requires i < |s.flows|
    ensures var f, t := s.flows[i], Apply(s, Resume(i, a));
      && t.modalOpen == s.modalOpen && t.form == s.form && t.pending == s.pending
      && (!(f.pc.AwaitLists? && a.ListsAre?) ==>
            && t.resources == s.resources && t.nodes == s.nodes && t.routes == s.routes
            && t.createdRoute == s.createdRoute)
      && (!(f.pc.AwaitLink? && a.LinkIs?) ==> t.link == s.link)
  {
  }

  // ---------------------------------------------------------------- steps

  function LastStep(f: Flow): Step {
    if f.steps == [] then Idle else f.steps[|f.steps| - 1]
  }

  predicate Passed(t: seq<Act>) {
    t != [] && t[|t| - 1].SawApproval? && t[|t| - 1].approval.ready && !t[|t| - 1].approval.blocked
  }

  predicate Linked(t: seq<Act>) {
    t != [] && t[|t| - 1].SawLink?
  }

  /** The step a flow wrote last tells where it stands. A finished flow wrote the complete step exactly when it saw
      its link, the confirm step exactly when it saw its approval passed, and failed otherwise. */
  predicate StepTells(f: Flow) {
    var last := LastStep(f);
    && (!f.pc.Done? ==> !Passed(f.trail) && !Linked(f.trail))
    && match f.pc
       case AwaitCsrf => last == if f.kind.ConfirmFlow? then CommandCreate else PreflightCreate
       case AwaitReadiness => last == PreflightCreate
       case AwaitPreflight => last == PreflightCreate
       case AwaitDryRun => last == CommandCreate
       case AwaitCreate => last == CommandCreate
       case AwaitRealExecution => last == CommandCreate
       case AwaitRead(p, _, attempt) =>
         last == if p.PreflightCommand? then (if attempt == 0 then PreflightCreate else PreflightRunning)
                 else if attempt == 0 then CommandCreate else CommandRunning
       case AwaitApproval(_) => last == CommandCreate || last == CommandRunning
       case AwaitLists => last == Refresh
       case AwaitLink => last == Exporting
       case Done => last == if Linked(f.trail) then Complete else if Passed(f.trail) then RealCreateConfirm else Failed
  }

  lemma FailingTells(f: Flow)
    requires !Passed(f.trail) && !Linked(f.trail)
    ensures StepTells(f.Failing())
  {
  }

  lemma TerminalTells(f: Flow, p: Purpose, id: string, attempt: nat, status: string)
    requires StepTells(f) && f.pc == AwaitRead(p, id, attempt)
    ensures StepTells(AfterTerminal(f, p, id, status))
  {
    if status != "succeeded" {
      FailingTells(f.Noted(SawTerminal(id, status)));
    }
  }

  lemma ReadTells(f: Flow, p: Purpose, id: string, attempt: nat, a: Answer)
    requires StepTells(f) && f.pc == AwaitRead(p, id, attempt)
    ensures StepTells(AfterRead(f, p, id, attempt, a))
  {
    FailingTells(f);
    if a.StatusIs? {
      TerminalTells(f, p, id, attempt, a.status);
    }
  }

  lemma CsrfTells(f: Flow)
    requires StepTells(f) && f.pc.AwaitCsrf? && f.trail == []
    ensures StepTells(AfterCsrf(f))
  {
  }

  lemma CommandTells(f: Flow, p: Purpose, id: string)
    requires StepTells(f)
    requires match p
             case DryRunCommand(_) => f.pc.AwaitDryRun?
             case PreflightCommand => f.pc.AwaitPreflight?
             case CreateCommand => f.pc.AwaitCreate? || f.pc.AwaitRealExecution?
    ensures StepTells(AfterCommand(f, p, id))
  {
  }

  lemma ReadinessTells(f: Flow, ready: bool, blocked: bool)
    requires StepTells(f) && f.pc.AwaitReadiness?
    ensures StepTells(AfterReadiness(f, ready, blocked))
  {
  }

  lemma ApprovalTells(f: Flow, a: Approval)
    requires StepTells(f) && f.pc.AwaitApproval?
    ensures StepTells(AfterApproval(f, a))
  {
  }

  lemma ListsTell(f: Flow, found: Option<Route>)
    requires StepTells(f) && f.pc.AwaitLists?
    ensures StepTells(AfterLists(f, found))
  {
  }

  lemma LinkTells(f: Flow, link: Option<string>)
    requires StepTells(f) && f.pc.AwaitLink?
    ensures StepTells(AfterLink(f, link))
  {
  }

  lemma AnsweredTells(f: Flow, a: Answer, pending: set<string>)
    requires StepTells(f) && (f.pc.AwaitCsrf? ==> f.trail == []) && !f.pc.Done? && !f.pc.AwaitRead?
    requires !a.Threw? && !a.Refused?
    ensures StepTells(Advance(f, a, pending))
  {
    match (f.pc, a)
    case (AwaitCsrf, CsrfToken) => CsrfTells(f);
    case (AwaitReadiness, ReadinessIs(ready, blocked)) => ReadinessTells(f, ready, blocked);
    case (AwaitDryRun, DryRunIs(d)) => CommandTells(f, DryRunCommand(d), d.commandId);
    case (AwaitApproval(_), ApprovalIs(x)) => ApprovalTells(f, x);
    case (AwaitPreflight, CommandIs(id)) => CommandTells(f, PreflightCommand, id);
    case (AwaitCreate, CommandIs(id)) => CommandTells(f, CreateCommand, id);
    case (AwaitRealExecution, CommandIs(id)) => CommandTells(f, CreateCommand, id);
    case (AwaitLists, ListsAre(lists)) => ListsTell(f, FindCreated(f.cap, LoadedRoutes(f, lists, pending)));
    case (AwaitLink, LinkIs(link)) => LinkTells(f, link);
    case _ =>
  }

  lemma AdvanceTells(f: Flow, a: Answer, pending: set<string>)
    requires StepTells(f) && (f.pc.AwaitCsrf? ==> f.trail == [])
    ensures StepTells(Advance(f, a, pending))
  {
    if f.pc.AwaitRead? {
      ReadTells(f, f.pc.purpose, f.pc.id, f.pc.attempt, a);
    } else if !f.pc.Done? {
      if a.Threw? || a.Refused? {
        FailingTells(f);
      } else {
        AnsweredTells(f, a, pending);
      }
    }
  }

  lemma NewFlowTells(s: State, e: Event)
    requires |Apply(s, e).flows| > |s.flows|
    ensures StepTells(Apply(s, e).flows[|s.flows|])
  {
  }

  lemma FlowMovesOn(s: State, e: Event, i: nat)
    requires i < |s.flows|
    ensures i < |Apply(s, e).flows|
    ensures Apply(s, e).flows[i]
            == if e.Resume? && e.i == i then Advance(s.flows[i], e.answer, s.pending) else s.flows[i]
  {
  }

  lemma ApplyTells(s: State, e: Event, i: nat)
    requires i < |Apply(s, e).flows| && |Apply(s, e).flows| <= |s.flows| + 1
    requires i < |s.flows| ==> StepTells(s.flows[i]) && (s.flows[i].pc.AwaitCsrf? ==> s.flows[i].trail == [])
    ensures StepTells(Apply(s, e).flows[i])
  {
    if i < |s.flows| {
      FlowMovesOn(s, e, i);
      if e.Resume? && e.i == i {
        AdvanceTells(s.flows[i], e.answer, s.pending);
      }
    } else {
      NewFlowTells(s, e);
    }
  }

  /** In every run, the step a flow wrote last tells where it stands. */
  lemma {:induction false} StepsTellWhere(events: seq<Event>, i: nat)
    requires i < |Run(events).flows|
    ensures StepTells(Run(events).flows[i])
  {
    if events == [] {
      FreshRunHasNoFlow();
      assert false;
    } else {
      LastEvent(events);
      StepTellsAfter(events[..|events| - 1], events[|events| - 1], i);
    }
  }

  lemma {:induction false} StepTellsAfter(before: seq<Event>, e: Event, i: nat)
    requires i < |Run(before + [e]).flows|
    ensures StepTells(Run(before + [e]).flows[i])
    decreases |before|
  {
    RunSnoc(before, e);
    AtMostOneMore(Run(before), e);
    if i < |Run(before).flows| {
      FreshRunHasNoFlow();
      LastEvent(before);
      StepTellsAfter(before[..|before| - 1], before[|before| - 1], i);
      if Run(before).flows[i].pc.AwaitCsrf? {
        WaitsForTokenFirst(before, i);
      }
    }
    ApplyTells(Run(before), e, i);
  }

  lemma AtMostOneMore(s: State, e: Event)
    ensures |Apply(s, e).flows| <= |s.flows| + 1
  {
  }

  lemma WaitsForTokenFirst(events: seq<Event>, i: nat)
    requires i < |Run(events).flows| && Run(events).flows[i].pc.AwaitCsrf?
    ensures Run(events).flows[i].trail == []
  {
    RunKeeps(events);
    assert FlowOk(Run(events).flows[i]);
  }

  lemma ShownStep(u: State, i: nat, f: Flow, g: Flow, a: Answer)
    requires i < |u.flows| && u.flows[i] == f
    requires f.pc.AwaitLists? && g.pc.AwaitLink? ==> |g.trail| >= 2 && g.trail[|g.trail| - 2].FoundRoute?
    ensures var t := Shown(u, i, f, g, a);
      |t.flows| == |u.flows| && t.flows[i] == g && t.step == if |g.steps| > |f.steps| then LastStep(g) else u.step
  {
  }

  /** The page shows the step a flow wrote, whenever one writes. */
  lemma WrittenStepIsShown(s: State, i: nat, a: Answer)
    requires i < |s.flows|
    ensures var f, t := s.flows[i], Apply(s, Resume(i, a));
      && |t.flows| == |s.flows|
      && t.step == if |t.flows[i].steps| > |f.steps| then LastStep(t.flows[i]) else s.step
  {
    var f := s.flows[i];
    AdvanceToLink(f, a, s.pending);
    ShownStep(if f.pc.AwaitLists? && a.ListsAre? then WithLists(s, a.lists) else s, i, f, Advance(f, a, s.pending), a);
  }
}
