/** The node-create modal as the page holds it: fields its handlers write one after the other, the submit
    handler continued after every await. `View` is the machine state and `Valid` the page invariant. Each
    handler makes the writes of its event, and `Dispatch` keeps the invariant. */
module LandingNodeModal {
  import opened Text
  import opened LandingCreate
  import opened LandingCreatePage
  import opened LandingCreateTheorems

  lemma ResumeCarriesCapture(s: State, i: nat, answer: Answer)
    requires Inv(s) && i < |s.flows|
    ensures var t := Resumed(s, i, answer); i < |t.flows| && CarriesCapture(t.flows[i])
  {
    AdvanceKeeps(s.flows[i], answer);
    ScriptCarriesCapture(Advance(s.flows[i], answer));
  }

  class NodeCreateModal {
    var modalOpen: bool
    var selectedServer: Option<Server>
    var nodePlanForm: Form
    var submitting: bool
    var nodeCreateStep: Step
    var createdNodeSummary: Option<NodeSummary>
    var flows: seq<Flow>
    var now: nat
    var tickedAt: nat
    var portEditedAt: nat

    function View(): State
      reads this
    {
      State(modalOpen, selectedServer, nodePlanForm, submitting, nodeCreateStep, createdNodeSummary, flows, now,
            tickedAt,
            portEditedAt)
    }

    predicate Valid()
      reads this
    {
      Inv(View())
    }

    constructor ()
      ensures View() == Init() && Valid()
    {
      modalOpen, selectedServer, nodePlanForm, submitting := false, None, EMPTY_FORM, false;
      nodeCreateStep, createdNodeSummary, flows, now, tickedAt, portEditedAt := Idle, None, [], 1, 0, 0;
    }

    method Empty()
      modifies `nodePlanForm, `nodeCreateStep, `createdNodeSummary, `portEditedAt
      ensures View() == Emptied(old(View()))
    {
      nodePlanForm := EMPTY_FORM;
      nodeCreateStep := Idle;
      createdNodeSummary := None;
      portEditedAt := now;
    }

    method OpenNodePlan(server: Server)
      modifies this
      ensures View() == Handled(old(View()), Open(server))
    {
      selectedServer := Some(server);
      Empty();
      modalOpen := true;
    }

    method CloseModal()
      modifies this
      ensures View() == Handled(old(View()), Close)
    {
      modalOpen := false;
      selectedServer := None;
      Empty();
    }

    method ChangeForm(edit: Edit)
      modifies `nodePlanForm, `portEditedAt, `tickedAt
      ensures View() == Handled(old(View()), Change(edit))
    {
      if modalOpen {
        nodePlanForm := Edited(nodePlanForm, edit);
        if edit.EditPort? {
          portEditedAt := now;
        }
        if edit.EditConfirmed? && edit.checked {
          tickedAt := now;
        }
      }
    }

    /** A click on the submit button: the handler's checks, then its writes up to the first await. A flow that
        starts holds the selected server and what the form shows, an allowed port and a firewall box ticked after
        the last port edit. */
    method SubmitSimplifiedLandingNodeCreate(read: Option<int>)
      requires Valid()
      modifies `submitting, `createdNodeSummary, `flows
      ensures View() == Handled(old(View()), Submit(read))
      ensures flows == old(flows) || (|flows| == |old(flows)| + 1 && CaptureOk(flows[|old(flows)|].cap)
                                      && ShownAt(old(View()), flows[|old(flows)|].cap))
    {
      SubmitStartsIff(View(), read);
      if Submits(View(), read) {
        var captured := Captured(View(), read);
        submitting := true;
        createdNodeSummary := None;
        flows := flows + [Flow(captured, AwaitCsrf, [], [])];
      }
    }

    // ------------------------------------------------------------ the submit handler after its awaits

    /** An exception in flow `i`: the `catch` and the `finally` of the handler. */
    method Fail(i: nat, f: Flow)
      requires i < |flows|
      modifies `nodeCreateStep, `submitting, `flows
      ensures nodeCreateStep == Failed && !submitting && flows == old(flows)[i := f.Failing()]
    {
      nodeCreateStep := Failed;
      submitting := false;
      flows := flows[i := f.(steps := f.steps + [Failed], pc := Done)];
    }

    method AfterCsrf(i: nat, answer: Answer)
      requires i < |flows| && flows[i].pc.AwaitCsrf?
      modifies this
      ensures View() == Resumed(old(View()), i, answer)
    {
      var f := flows[i];
      if answer.Threw? || answer.Refused? {
        Fail(i, f);
      } else if answer.Token? {
        nodeCreateStep := PreflightCreate;
        flows := flows[i := Flow(f.cap, AwaitPreflight, f.trail + [Sent(Preflight(f.cap.workerId, f.cap.serverId))],
                                 f.steps + [PreflightCreate])];
      } else {
        assert flows[i := f] == flows;
      }
    }

    /** The preflight or create command was created: wait for it. */
    method AfterCommand(i: nat, answer: Answer)
      requires i < |flows| && (flows[i].pc.AwaitPreflight? || flows[i].pc.AwaitCreate?)
      modifies this
      ensures View() == Resumed(old(View()), i, answer)
    {
      var f := flows[i];
      if answer.Threw? || answer.Refused? {
        Fail(i, f);
      } else if answer.CommandIs? {
        flows := flows[i := Flow(f.cap, AwaitRead(f.pc.AwaitCreate?, answer.id, 0),
                                 f.trail + [SawCommand(answer.workerId, answer.id)], f.steps)];
      } else {
        assert flows[i := f] == flows;
      }
    }

    /** The wait of flow `i` ended with this status. */
    method CommandEnded(i: nat, creating: bool, id: string, status: string)
      requires i < |flows|
      modifies `nodeCreateStep, `submitting, `flows
      ensures var g := AfterTerminal(old(flows)[i], creating, id, status);
        && flows == old(flows)[i := g] && nodeCreateStep == g.steps[|g.steps| - 1]
        && submitting == (old(submitting) && !g.pc.Done?)
    {
      var f := flows[i];
      f := f.(trail := f.trail + [SawTerminal(id, status)]);
      if status != "succeeded" {
        Fail(i, f);
      } else if creating {
        nodeCreateStep := Refresh;
        flows := flows[i := Flow(f.cap, AwaitServers, f.trail, f.steps + [Refresh])];
      } else {
        nodeCreateStep := Plan;
        flows := flows[i := Flow(f.cap, AwaitPlan, f.trail + [Sent(PlanOf(f.cap))], f.steps + [Plan])];
      }
    }

    method AfterRead(i: nat, answer: Answer)
      requires i < |flows| && flows[i].pc.AwaitRead?
      modifies this
      ensures View() == Resumed(old(View()), i, answer)
    {
      var f := flows[i];
      var AwaitRead(creating, id, attempt) := f.pc;
      if attempt >= MAX_READS || answer.Threw? || answer.Refused? {
        Fail(i, f);
      } else if answer.CommandsAre? {
        var command := ListedCommand(answer.commands, id);
        if command.Some? && command.value.status in TERMINAL {
          CommandEnded(i, creating, id, command.value.status);
        } else {
          nodeCreateStep := if creating then CommandRunning else PreflightRunning;
          flows := flows[i := Flow(f.cap, AwaitRead(creating, id, attempt + 1), f.trail, f.steps + [nodeCreateStep])];
        }
      } else {
        assert flows[i := f] == flows;
      }
    }

    method AfterPlan(i: nat, answer: Answer)
      requires i < |flows| && flows[i].pc.AwaitPlan?
      modifies this
      ensures View() == Resumed(old(View()), i, answer)
    {
      var f := flows[i];
      if answer.Threw? || answer.Refused? {
        Fail(i, f);
      } else if answer.PlanIs? {
        f := f.(trail := f.trail + [SawPlan(answer.ready)]);
        if !answer.ready {
          Fail(i, f);
        } else {
          nodeCreateStep := CommandCreate;
          flows := flows[i := Flow(f.cap, AwaitCreate, f.trail + [Sent(CreateOf(f.cap))], f.steps + [CommandCreate])];
        }
      } else {
        assert flows[i := f] == flows;
      }
    }

    method AfterServers(i: nat, answer: Answer)
      requires i < |flows| && flows[i].pc.AwaitServers?
      modifies this
      ensures View() == Resumed(old(View()), i, answer)
    {
      var f := flows[i];
      if answer.Threw? || answer.Refused? {
        Fail(i, f);
      } else if answer.ServersAre? {
        createdNodeSummary := FindCreatedNode(answer.servers, f.cap.serverId, f.cap.port);
        nodeCreateStep := Complete;
        submitting := false;
        flows := flows[i := Flow(f.cap, Done, f.trail + [SawNode(createdNodeSummary)], f.steps + [Complete])];
      } else {
        assert flows[i := f] == flows;
      }
    }

    /** The await of flow `i` resumes with `answer`, and the handler runs up to its next await. What it sends names
        what its click captured. */
    method ResumeFlow(i: nat, answer: Answer)
      requires Valid() && i < |flows|
      modifies this
      ensures View() == Resumed(old(View()), i, answer)
      ensures i < |flows| && CarriesCapture(flows[i])
    {
      ResumeCarriesCapture(View(), i, answer);
      match flows[i].pc
      case AwaitCsrf => AfterCsrf(i, answer);
      case AwaitPreflight => AfterCommand(i, answer);
      case AwaitPlan => AfterPlan(i, answer);
      case AwaitCreate => AfterCommand(i, answer);
      case AwaitRead(_, _, _) => AfterRead(i, answer);
      case AwaitServers => AfterServers(i, answer);
      case Done => assert flows[i := flows[i]] == flows;
    }

    method Handle(e: Event)
      requires Valid()
      modifies this
      ensures View() == Handled(old(View()), e)
    {
      match e
      case Open(server) => OpenNodePlan(server);
      case Close => CloseModal();
      case Change(edit) => ChangeForm(edit);
      case Submit(read) => SubmitSimplifiedLandingNodeCreate(read);
      case Busy(busy) => submitting := busy;
      case Resume(i, answer) =>
        if i < |flows| {
          ResumeFlow(i, answer);
        }
    }

    /** One event of the page. */
    method Dispatch(e: Event)
      requires Valid()
      modifies this
      ensures Valid() && View() == Apply(old(View()), e)
    {
      ApplyKeeps(View(), e);
      Handle(e);
      now := now + 1;
    }
  }
}
