/** The create modal as the component holds it: fields its handlers write one after the other, the submit and
    confirm handlers continued after every await. `View` is the machine state and `Valid` the page invariant.
    Each handler makes the writes of its event, and `Dispatch` keeps the invariant. */
module TransitCreateModal {
  import opened Text
  import opened Listing
  import opened TransitCreate
  import opened TransitCreateRequests
  import opened TransitCreateSafety
  import opened TransitCreateTheorems

  lemma ListsResume(s: State, i: nat, lists: Lists)
    requires i < |s.flows| && s.flows[i].pc.AwaitLists?
    ensures var f := s.flows[i];
            var found := FindCreated(f.cap, LoadedRoutes(f, lists, s.pending));
            var g := AfterLists(f, found);
      Resumed(s, i, ListsAre(lists)) ==
        WithLists(s, lists).(flows := s.flows[i := g], step := g.steps[|g.steps| - 1],
                             createdRoute := if found.Some? then found else s.createdRoute,
                             executionLoading := s.executionLoading && !(g.pc.Done? && f.kind.ConfirmFlow?))
  {
  }

  lemma FailedResume(s: State, i: nat, answer: Answer)
    requires i < |s.flows| && !s.flows[i].pc.Done? && !s.flows[i].pc.AwaitRead? && (answer.Threw? || answer.Refused?)
    ensures Resumed(s, i, answer) ==
      s.(flows := s.flows[i := s.flows[i].Failing()], step := Failed,
         executionLoading := s.executionLoading && !s.flows[i].kind.ConfirmFlow?)
  {
  }

  lemma CommandResume(s: State, i: nat, answer: Answer)
    requires i < |s.flows| && AwaitsCommand(s.flows[i].pc) && !answer.Threw? && !answer.Refused?
    ensures var f := s.flows[i];
      Resumed(s, i, answer) ==
        if f.pc.AwaitDryRun? && answer.DryRunIs? then
          s.(flows := s.flows[i := AfterCommand(f, DryRunCommand(answer.dryRun), answer.dryRun.commandId)])
        else if !f.pc.AwaitDryRun? && answer.CommandIs? then
          s.(flows := s.flows[i := AfterCommand(f, CommandPurpose(f.pc), answer.id)])
        else s
  {
    assert s.flows[i := s.flows[i]] == s.flows;
  }

  lemma LinkResume(s: State, i: nat, answer: Answer)
    requires i < |s.flows| && s.flows[i].pc.AwaitLink? && !answer.Threw? && !answer.Refused?
    ensures Resumed(s, i, answer) ==
      if answer.LinkIs? then
        s.(flows := s.flows[i := AfterLink(s.flows[i], answer.link)], step := Complete, link := answer.link,
           executionLoading := s.executionLoading && !s.flows[i].kind.ConfirmFlow?)
      else s
  {
    assert s.flows[i := s.flows[i]] == s.flows;
  }

  lemma ResumeCarriesCapture(s: State, i: nat, answer: Answer)
    requires Inv(s) && i < |s.flows|
    ensures var t := Resumed(s, i, answer); i < |t.flows| && CarriesCapture(t.flows[i])
  {
    ResumeKeeps(s, i, answer);
    var t := Resumed(s, i, answer);
    assert FlowOk(t.flows[i]);
    ScriptCarriesCapture(t.flows[i]);
  }

  predicate AwaitsCommand(pc: Pc) {
    pc.AwaitDryRun? || pc.AwaitPreflight? || pc.AwaitCreate? || pc.AwaitRealExecution?
  }

  function CommandPurpose(pc: Pc): Purpose {
    if pc.AwaitPreflight? then PreflightCommand else CreateCommand
  }

  class CreateRouteModal {
    var createModalOpen: bool
    var createForm: RouteForm
    var createStep: Step
    var realCreateContext: Option<Context>
    var realExecutionLoading: bool
    var createdRoute: Option<Route>
    var createExport: Option<string>
    var resources: seq<Resource>
    var nodes: seq<Node>
    var routes: seq<Route>
    var pendingDeletedRouteIds: set<string>
    var flows: seq<Flow>

    function View(): State
      reads this
    {
      State(createModalOpen, createForm, createStep, realCreateContext, realExecutionLoading, createdRoute,
            createExport, resources, nodes, routes, pendingDeletedRouteIds, flows)
    }

    predicate Valid()
      reads this
    {
      Inv(View())
    }

    constructor ()
      ensures View() == Init() && Valid()
    {
      createModalOpen, createForm, createStep := false, EMPTY_FORM, Idle;
      realCreateContext, realExecutionLoading, createdRoute, createExport := None, false, None, None;
      resources, nodes, routes, pendingDeletedRouteIds, flows := [], [], [], {}, [];
    }

    /** The writes with which submit, open and close drop what an earlier run showed. */
    method Reset(step: Step)
      modifies this
      ensures View() == Cleared(old(View()), step)
    {
      createStep := step;
      realCreateContext := None;
      realExecutionLoading := false;
      createdRoute := None;
      createExport := None;
    }

    method Open(draftResourceId: string, draftNodeId: string)
      modifies this
      ensures View() == Apply(old(View()), Event.Open(draftResourceId, draftNodeId))
    {
      createForm := OpenForm(View(), draftResourceId, draftNodeId);
      Reset(Idle);
      createModalOpen := true;
    }

    method Close()
      modifies this
      ensures View() == Apply(old(View()), Event.Close)
    {
      if createModalOpen {
        createModalOpen := false;
        createForm := EMPTY_FORM;
        Reset(Idle);
      }
    }

    method Change(edit: Edit)
      modifies `createForm
      ensures View() == Apply(old(View()), Event.Change(edit))
    {
      if createModalOpen {
        createForm := Edited(createForm, edit);
      }
    }

    /** A click on the submit button: the closure captures the render, and the handler runs up to its first
        await. */
    method Submit()
      modifies this
      ensures View() == Apply(old(View()), Event.Submit)
    {
      if SubmitEnabled(View()) {
        var captured := Rendered(View());
        Reset(PreflightCreate);
        flows := flows + [Flow(CreateFlow, captured, AwaitCsrf, [], [PreflightCreate])];
      }
    }

    /** The writes of a click on the confirm button; the context is read but stays in place. */
    method StartConfirm()
      modifies `realExecutionLoading, `createStep, `flows
      ensures View() == Apply(old(View()), Event.Confirm)
    {
      if ConfirmEnabled(View()) {
        var captured := Rendered(View());
        realExecutionLoading := true;
        createStep := CommandCreate;
        flows := flows + [Flow(ConfirmFlow(realCreateContext.value), captured, AwaitCsrf, [], [CommandCreate])];
      }
    }

    /** A flow that a confirm click starts holds a context no flow was confirmed from before, and one earlier
        flow dry-ran and got approved what it will ask for. */
    method Confirm()
      requires Valid()
      modifies `realExecutionLoading, `createStep, `flows
      ensures View() == Apply(old(View()), Event.Confirm)
      ensures ConfirmStartsApproved(old(flows), flows)
    {
      ConfirmIsApproved(View());
      StartConfirm();
    }

    /** The list writes of `loadData`, each skipped when its fetch failed. */
    method LoadData(lists: Lists)
      modifies `resources, `nodes, `routes
      ensures View() == Apply(old(View()), Loaded(lists))
    {
      if lists.resources.Some? {
        resources := Filter(lists.resources.value, (r: Resource) => !Deleted(r.status) && !r.deleted);
      }
      if lists.nodes.Some? {
        nodes := Filter(lists.nodes.value, (n: Node) => !Deleted(n.status));
      }
      if lists.routes.Some? {
        routes := VisibleRoutes(lists.routes.value, pendingDeletedRouteIds);
      }
    }

    // ------------------------------------------------------------ the handlers after their awaits

    /** An exception in flow `i`: the `catch`, and for a confirm flow the `finally`. */
    method Fail(i: nat, f: Flow)
      requires i < |flows|
      modifies `createStep, `realExecutionLoading, `flows
      ensures createStep == Failed && realExecutionLoading == (old(realExecutionLoading) && !f.kind.ConfirmFlow?)
      ensures flows == old(flows)[i := f.Failing()]
    {
      createStep := Failed;
      if f.kind.ConfirmFlow? {
        realExecutionLoading := false;
      }
      flows := flows[i := f.(steps := f.steps + [Failed], pc := Done)];
    }

    method AfterCsrf(i: nat, answer: Answer)
      requires i < |flows| && flows[i].pc.AwaitCsrf?
      modifies this
      ensures View() == Resumed(old(View()), i, answer)
    {
      var f := flows[i];
      if answer.Threw? || answer.Refused? {
        Fail(i, f);
      } else if answer.CsrfToken? {
        if f.kind.ConfirmFlow? {
          flows := flows[i := Flow(f.kind, f.cap, AwaitRealExecution,
                                   f.trail + [Sent(RealExecutionOf(f.kind.context))], f.steps)];
        } else if f.cap.forwarding == HaproxyTcp {
          flows := flows[i := Flow(f.kind, f.cap, AwaitReadiness, f.trail + [Sent(ReadinessOf(f.cap))], f.steps)];
        } else {
          flows := flows[i := Flow(f.kind, f.cap, AwaitPreflight, f.trail + [Sent(PreflightOf(f.cap))], f.steps)];
        }
      } else {
        assert flows[i := flows[i]] == flows;
      }
    }

    method AfterReadiness(i: nat, answer: Answer)
      requires i < |flows| && flows[i].pc.AwaitReadiness?
      modifies this
      ensures View() == Resumed(old(View()), i, answer)
    {
      var f := flows[i];
      if answer.Threw? || answer.Refused? {
        FailedResume(View(), i, answer);
        Fail(i, f);
      } else if answer.ReadinessIs? {
        f := f.(trail := f.trail + [SawReadiness(answer.ready, answer.blocked)]);
        if !answer.ready || answer.blocked {
          Fail(i, f);
        } else {
          createStep := CommandCreate;
          flows := flows[i := Flow(f.kind, f.cap, AwaitDryRun, f.trail + [Sent(DryRunOf(f.cap))],
                                   f.steps + [CommandCreate])];
        }
      } else {
        assert flows[i := flows[i]] == flows;
      }
    }

    /** A command was created: wait for it. */
    method StartWait(i: nat, p: Purpose, id: string)
      requires i < |flows|
      modifies `flows
      ensures flows == old(flows)[i := TransitCreate.AfterCommand(old(flows)[i], p, id)]
    {
      var f := flows[i];
      var seen := if p.DryRunCommand? then SawDryRun(p.dryRun) else SawCommand(id);
      flows := flows[i := Flow(f.kind, f.cap, AwaitRead(p, id, 0), f.trail + [seen], f.steps)];
    }

    method AfterCommand(i: nat, answer: Answer)
      requires i < |flows| && AwaitsCommand(flows[i].pc)
      modifies this
      ensures View() == Resumed(old(View()), i, answer)
    {
      if answer.Threw? || answer.Refused? {
        FailedResume(View(), i, answer);
        Fail(i, flows[i]);
      } else {
        CommandResume(View(), i, answer);
        if flows[i].pc.AwaitDryRun? && answer.DryRunIs? {
          StartWait(i, DryRunCommand(answer.dryRun), answer.dryRun.commandId);
        } else if !flows[i].pc.AwaitDryRun? && answer.CommandIs? {
          StartWait(i, if flows[i].pc.AwaitPreflight? then PreflightCommand else CreateCommand, answer.id);
        }
      }
    }

    /** The final approval answered. */
    method Judge(i: nat, dryRun: DryRun, a: Approval)
      requires i < |flows|
      modifies `createStep, `realCreateContext, `realExecutionLoading, `flows
      ensures var f := old(flows)[i];
              var g := TransitCreate.AfterApproval(f, a);
        && flows == old(flows)[i := g] && createStep == g.steps[|g.steps| - 1]
        && realExecutionLoading == (old(realExecutionLoading) && !f.kind.ConfirmFlow?)
        && realCreateContext == (if a.ready && !a.blocked
                                 then Some(Context(i, ResourceId(f.cap), NodeId(f.cap), dryRun, a))
                                 else old(realCreateContext))
    {
      var f := flows[i];
      f := f.(trail := f.trail + [SawApproval(a)]);
      if !a.ready || a.blocked {
        Fail(i, f);
      } else {
        realCreateContext := Some(Context(i, ResourceId(f.cap), NodeId(f.cap), dryRun, a));
        createStep := RealCreateConfirm;
        if f.kind.ConfirmFlow? {
          realExecutionLoading := false;
        }
        flows := flows[i := f.(steps := f.steps + [RealCreateConfirm], pc := Done)];
      }
    }

    method AfterApproval(i: nat, answer: Answer)
      requires i < |flows| && flows[i].pc.AwaitApproval?
      modifies this
      ensures View() == Resumed(old(View()), i, answer)
    {
      if answer.Threw? || answer.Refused? {
        FailedResume(View(), i, answer);
        Fail(i, flows[i]);
      } else if answer.ApprovalIs? {
        Judge(i, flows[i].pc.dryRun, answer.approval);
      } else {
        assert flows[i := flows[i]] == flows;
      }
    }

    /** The wait of flow `i` ended with this status. */
    method CommandEnded(i: nat, p: Purpose, id: string, status: string)
      requires i < |flows|
      modifies `createStep, `realExecutionLoading, `flows
      ensures var f := old(flows)[i];
              var g := AfterTerminal(f, p, id, status);
        && flows == old(flows)[i := g]
        && createStep == (if |g.steps| > |f.steps| then g.steps[|g.steps| - 1] else old(createStep))
        && realExecutionLoading == (old(realExecutionLoading) && !(g.pc.Done? && f.kind.ConfirmFlow?))
    {
      var f := flows[i];
      f := f.(trail := f.trail + [SawTerminal(id, status)]);
      if status != "succeeded" {
        Fail(i, f);
        return;
      }
      match p
      case DryRunCommand(d) =>
        flows := flows[i := Flow(f.kind, f.cap, AwaitApproval(d), f.trail + [Sent(ApprovalOf(f.cap, d))], f.steps)];
      case PreflightCommand =>
        createStep := CommandCreate;
        flows := flows[i := Flow(f.kind, f.cap, AwaitCreate, f.trail + [Sent(CreateOf(f.cap))],
                                 f.steps + [CommandCreate])];
      case CreateCommand =>
        createStep := Refresh;
        flows := flows[i := Flow(f.kind, f.cap, AwaitLists, f.trail, f.steps + [Refresh])];
    }

    /** One turn of the wait: an end, another sleep, or an exception. */
    method ReadOnce(i: nat, p: Purpose, id: string, attempt: nat, answer: Answer)
      requires i < |flows| && flows[i].pc == AwaitRead(p, id, attempt)
      modifies `createStep, `realExecutionLoading, `flows
      ensures var f := old(flows)[i];
              var g := AfterRead(f, p, id, attempt, answer);
        && flows == old(flows)[i := g]
        && createStep == (if |g.steps| > |f.steps| then g.steps[|g.steps| - 1] else old(createStep))
        && realExecutionLoading == (old(realExecutionLoading) && !(g.pc.Done? && f.kind.ConfirmFlow?))
    {
      var f := flows[i];
      if attempt >= MAX_READS || answer.Threw? || answer.Refused? || (answer.NotFound? && !answer.withinRetryWindow) {
        Fail(i, f);
      } else if answer.StatusIs? && answer.status in TERMINAL {
        CommandEnded(i, p, id, answer.status);
      } else if answer.StatusIs? || answer.NotFound? {
        createStep := RunningStep(p);
        flows := flows[i := Flow(f.kind, f.cap, AwaitRead(p, id, attempt + 1), f.trail, f.steps + [RunningStep(p)])];
      } else {
        assert flows[i := flows[i]] == flows;
      }
    }

    method AfterReadOf(i: nat, answer: Answer)
      requires i < |flows| && flows[i].pc.AwaitRead?
      modifies this
      ensures View() == Resumed(old(View()), i, answer)
    {
      var AwaitRead(p, id, attempt) := flows[i].pc;
      ReadOnce(i, p, id, attempt, answer);
    }

    /** The created route was looked for. */
    method ShowFound(i: nat, found: Option<Route>)
      requires i < |flows|
      modifies `createStep, `realExecutionLoading, `createdRoute, `flows
      ensures var f := old(flows)[i];
              var g := TransitCreate.AfterLists(f, found);
        && flows == old(flows)[i := g] && createStep == g.steps[|g.steps| - 1]
        && realExecutionLoading == (old(realExecutionLoading) && !(g.pc.Done? && f.kind.ConfirmFlow?))
        && createdRoute == (if found.Some? then found else old(createdRoute))
    {
      var f := flows[i];
      if found.None? {
        Fail(i, f);
      } else {
        createdRoute := found;
        createStep := Exporting;
        flows := flows[i := Flow(f.kind, f.cap, AwaitLink,
                                 f.trail + [FoundRoute(found.value)] + [Sent(ExportLink(found.value.id))],
                                 f.steps + [Exporting])];
      }
    }

    /** The route is looked for in the list just fetched, else in the one the click captured. */
    method LookForRoute(i: nat, lists: Lists)
      requires i < |flows| && flows[i].pc.AwaitLists?
      modifies this
      ensures View() == Resumed(old(View()), i, ListsAre(lists))
    {
      ListsResume(View(), i, lists);
      var found := FindCreated(flows[i].cap, LoadedRoutes(flows[i], lists, pendingDeletedRouteIds));
      LoadData(lists);
      ShowFound(i, found);
    }

    method AfterLists(i: nat, answer: Answer)
      requires i < |flows| && flows[i].pc.AwaitLists?
      modifies this
      ensures View() == Resumed(old(View()), i, answer)
    {
      if answer.ListsAre? {
        LookForRoute(i, answer.lists);
      } else if answer.Threw? || answer.Refused? {
        Fail(i, flows[i]);
      } else {
        assert flows[i := flows[i]] == flows;
      }
    }

    /** The link was exported. */
    method ShowLink(i: nat, link: Option<string>)
      requires i < |flows|
      modifies `createStep, `realExecutionLoading, `createExport, `flows
      ensures var f := old(flows)[i];
        && flows == old(flows)[i := TransitCreate.AfterLink(f, link)] && createStep == Complete && createExport == link
        && realExecutionLoading == (old(realExecutionLoading) && !f.kind.ConfirmFlow?)
    {
      var f := flows[i];
      createExport := link;
      createStep := Complete;
      if f.kind.ConfirmFlow? {
        realExecutionLoading := false;
      }
      flows := flows[i := Flow(f.kind, f.cap, Done, f.trail + [SawLink(link)], f.steps + [Complete])];
    }

    method AfterLink(i: nat, answer: Answer)
      requires i < |flows| && flows[i].pc.AwaitLink?
      modifies this
      ensures View() == Resumed(old(View()), i, answer)
    {
      if answer.Threw? || answer.Refused? {
        FailedResume(View(), i, answer);
        Fail(i, flows[i]);
      } else {
        LinkResume(View(), i, answer);
        if answer.LinkIs? {
          ShowLink(i, answer.link);
        }
      }
    }

    /** The await of flow `i` resumes with `answer`, and the handler runs up to its next await. What it sends carries
        what its click captured. */
    method Resume(i: nat, answer: Answer)
      requires Valid() && i < |flows|
      modifies this
      ensures View() == Resumed(old(View()), i, answer)
      ensures i < |flows| && CarriesCapture(flows[i])
    {
      ResumeCarriesCapture(View(), i, answer);
      match flows[i].pc
      case AwaitCsrf => AfterCsrf(i, answer);
      case AwaitReadiness => AfterReadiness(i, answer);
      case AwaitDryRun => AfterCommand(i, answer);
      case AwaitApproval(_) => AfterApproval(i, answer);
      case AwaitPreflight => AfterCommand(i, answer);
      case AwaitCreate => AfterCommand(i, answer);
      case AwaitRealExecution => AfterCommand(i, answer);
      case AwaitRead(_, _, _) => AfterReadOf(i, answer);
      case AwaitLists => AfterLists(i, answer);
      case AwaitLink => AfterLink(i, answer);
      case Done => assert flows[i := flows[i]] == flows;
    }

    method Handle(e: Event)
      requires Valid()
      modifies this
      ensures View() == Apply(old(View()), e)
    {
      match e
      case Open(resourceId, nodeId) => Open(resourceId, nodeId);
      case Close => Close();
      case Change(edit) => Change(edit);
      case Submit => Submit();
      case Confirm => Confirm();
      case Loaded(lists) => LoadData(lists);
      case RoutesEdited(list, pending) => routes, pendingDeletedRouteIds := list, pending;
      case Resume(i, answer) =>
        if i < |flows| {
          Resume(i, answer);
        }
    }

    /** One event of the page. */
    method Dispatch(e: Event)
      requires Valid()
      modifies this
      ensures Valid() && View() == Apply(old(View()), e)
    {
      ApplyKeeps(View(), e);
      Handle(e);
    }
  }
}
