/** What the landing-node modal shows and sends: its form through edits, the values a submit captures, the fields of
    every request, the steps, and the node it reports. */
module LandingCreatePage {
  import opened Text
  import opened Listing
  import opened LandingCreate
  import opened LandingCreateTheorems
  import Ports

  // ---------------------------------------------------------------- the form

  /** An edit writes its own input; a port edit also unticks the firewall box and takes along a name that is blank
      or the suggested one. */
  lemma EditWritesItsInput(f: Form, e: Edit)
    ensures var g := Edited(f, e);
      && g.listenPort == (if e.EditPort? then e.text else f.listenPort)
      && g.serverName == (if e.EditServerName? then e.text else f.serverName)
      && g.dest == (if e.EditDest? then e.text else f.dest)
      && g.fingerprint == (if e.EditFingerprint? then e.text else f.fingerprint)
      && g.protectedCreateConfirmed == (if e.EditConfirmed? then e.checked
                                        else f.protectedCreateConfirmed && !e.EditPort?)
      && g.nodeName == (if e.EditName? then e.text
                        else if e.EditPort? && (Blank(f.nodeName) || f.nodeName == "liveline-reality-" + f.listenPort)
                        then "liveline-reality-" + e.text
                        else f.nodeName)
  {
  }

  /** Opening selects the server and shows the default form, unticked; closing leaves the same form behind. Both
      clear the step and the reported node and leave the flows alone. */
  lemma OpenAndCloseReset(s: State, server: Server)
    ensures var empty := Form("liveline-reality-27939", "27939", "dash.cloudflare.com", "dash.cloudflare.com:443",
                              "chrome", false);
            var o, c := Apply(s, Open(server)), Apply(s, Close);
      && o.modalOpen && o.selected == Some(server) && o.form == empty && o.step == Idle && o.created.None?
      && o.submitting == s.submitting && o.flows == s.flows
      && !c.modalOpen && c.selected.None? && c.form == empty && c.step == Idle && c.created.None?
      && c.submitting == s.submitting && c.flows == s.flows
  {
    assert "liveline-reality-" + "27939" == "liveline-reality-27939";
  }

  // ---------------------------------------------------------------- what a submit captures

  /** The ports a node may listen on. */
  lemma AllowedPortIff(port: int)
    ensures AllowedPort(port) <==> 10000 < port <= 30000 && port !in {15432, 16379, 18443, 27017}
  {
  }

  /** The captured values are the selected server's id and Worker and what the form shows. */
  predicate ShownAt(s: State, c: Capture) {
    && s.selected.Some? && c.serverId == s.selected.value.id && s.selected.value.workerId == Some(c.workerId)
    && c.nodeName == s.form.nodeName && c.serverName == s.form.serverName && c.dest == s.form.dest
    && c.fingerprint == s.form.fingerprint && c.confirmed == s.form.protectedCreateConfirmed
    && (Ports.NumberOf(s.form.listenPort).Some? ==> Ports.NumberOf(s.form.listenPort) == Some(c.port))
  }

  /** A submit starts a flow exactly when the modal shows the button enabled and the handler's checks pass, and the
      flow holds what the page shows. */
  lemma SubmitStartsIff(s: State, read: Option<int>)
    ensures var t := Apply(s, Submit(read));
      if s.modalOpen && s.step != Complete && !s.submitting && s.form.protectedCreateConfirmed
         && s.selected.Some? && s.selected.value.workerId.Some? && s.selected.value.workerOnline
         && (Ports.NumberOf(s.form.listenPort).Some? ==> read == Ports.NumberOf(s.form.listenPort))
         && read.Some? && AllowedPort(read.value)
      then
        && |t.flows| == |s.flows| + 1 && t.flows[..|s.flows|] == s.flows
        && var f := t.flows[|s.flows|];
        && f.pc.AwaitCsrf? && f.trail == [] && f.steps == []
        && ShownAt(s, f.cap) && f.cap.port == read.value
        && t.submitting && t.created.None? && t.step == s.step && t.form == s.form && t.selected == s.selected
        && t.modalOpen
      else t == s.(now := t.now)
  {
  }

  /** Event `k` is the submit that started flow `i`, and the page showed then what the flow holds. */
  predicate ClickedAt(events: seq<Event>, i: nat, k: nat)
    requires i < |Run(events).flows|
  {
    && k < |events| && |Run(events[..k]).flows| == i && events[k].Submit?
    && ShownAt(Run(events[..k]), Run(events).flows[i].cap)
  }

  lemma RunSnoc(events: seq<Event>, e: Event)
    ensures Run(events + [e]) == Apply(Run(events), e)
  {
    assert (events + [e])[..|events|] == events;
  }

  lemma OthersAddNoFlow(s: State, e: Event)
    requires !e.Submit?
    ensures |Apply(s, e).flows| == |s.flows|
  {
  }

  lemma NewFlowIsClicked(s: State, e: Event)
    requires |Apply(s, e).flows| > |s.flows|
    ensures |Apply(s, e).flows| == |s.flows| + 1 && e.Submit? && ShownAt(s, Apply(s, e).flows[|s.flows|].cap)
  {
    if e.Submit? {
      SubmitStartsIff(s, e.read);
    } else {
      OthersAddNoFlow(s, e);
    }
  }

  lemma ClickStays(events: seq<Event>, e: Event, i: nat, k: nat)
    requires i < |Run(events).flows| && ClickedAt(events, i, k)
    ensures i < |Run(events + [e]).flows| && ClickedAt(events + [e], i, k)
  {
    RunSnoc(events, e);
    CaptureStays(Run(events), e, i);
    assert (events + [e])[..k] == events[..k];
  }

  lemma ClickIsLast(events: seq<Event>, e: Event)
    requires |Run(events + [e]).flows| > |Run(events).flows|
    ensures |Run(events + [e]).flows| == |Run(events).flows| + 1
    ensures ClickedAt(events + [e], |Run(events).flows|, |events|)
  {
    RunSnoc(events, e);
    NewFlowIsClicked(Run(events), e);
    assert (events + [e])[..|events|] == events;
  }

  lemma LastEvent(events: seq<Event>)
    requires events != []
    ensures events == events[..|events| - 1] + [events[|events| - 1]]
  {
  }

  lemma FreshRunHasNoFlow()
    ensures Run([]).flows == []
  {
  }

  /** Every flow of every run holds what the page showed at its click, whatever was edited since. */
  lemma {:induction false} FlowHoldsWhatWasShown(events: seq<Event>, i: nat) returns (k: nat)
    requires i < |Run(events).flows|
    ensures ClickedAt(events, i, k)
  {
    if events == [] {
      FreshRunHasNoFlow();
      assert false;
    } else {
      LastEvent(events);
      k := FlowAfter(events[..|events| - 1], events[|events| - 1], i);
    }
  }

  lemma {:induction false} FlowAfter(before: seq<Event>, e: Event, i: nat) returns (k: nat)
    requires i < |Run(before + [e]).flows|
    ensures ClickedAt(before + [e], i, k)
    decreases |before|
  {
    if i < |Run(before).flows| {
      FreshRunHasNoFlow();
      LastEvent(before);
      k := FlowAfter(before[..|before| - 1], before[|before| - 1], i);
      ClickStays(before, e, i, k);
    } else {
      ClickIsLast(before, e);
      k := |before|;
    }
  }

  // ---------------------------------------------------------------- what the requests carry

  /** A request names what its flow captured, each value in its own field; an empty name is sent as none. */
  predicate NamesCaptured(q: Request, c: Capture) {
    match q
    case Preflight(_, _) => q.workerId == c.workerId && q.serverId == c.serverId
    case PlanNode(_, _, _, _, _, _, _) =>
      && q.serverId == c.serverId && q.port == c.port
      && q.serverName == c.serverName && q.dest == c.dest && q.fingerprint == c.fingerprint
      && q.remark == (if c.nodeName == "" then None else Some(c.nodeName)) && q.firewallConfirmed == c.confirmed
    case CreateNode(_, _, _, _, _, _, _) =>
      && q.serverId == c.serverId && q.port == c.port
      && q.serverName == c.serverName && q.dest == c.dest && q.fingerprint == c.fingerprint
      && q.nodeName == (if c.nodeName == "" then None else Some(c.nodeName)) && q.confirmed == c.confirmed
  }

  predicate CarriesCapture(f: Flow) {
    forall a :: 0 <= a < |f.trail| && f.trail[a].Sent? ==> NamesCaptured(f.trail[a].request, f.cap)
  }

  lemma ScriptCarriesCapture(f: Flow)
    requires Script(f)
    ensures CarriesCapture(f)
  {
  }

  /** Every request of every run names what its flow captured. */
  lemma RequestsNameTheCapture(events: seq<Event>, i: nat)
    requires i < |Run(events).flows|
    ensures CarriesCapture(Run(events).flows[i])
  {
    RunKeeps(events);
    assert FlowOk(Run(events).flows[i]);
    ScriptCarriesCapture(Run(events).flows[i]);
  }

  // ---------------------------------------------------------------- the node reported

  /** Entry `v` of the list is the first of this server, and `n` its first linked node on this port. */
  predicate ReportedAt(servers: seq<Listed>, serverId: string, port: int, node: NodeSummary, v: nat, n: nat) {
    && v < |servers| && servers[v].id == serverId && (forall j :: 0 <= j < v ==> servers[j].id != serverId)
    && n < |servers[v].nodes| && servers[v].nodes[n] == node && node.port == Some(port) && node.linkPresent
    && forall j :: 0 <= j < n ==> !(servers[v].nodes[j].port == Some(port) && servers[v].nodes[j].linkPresent)
  }

  /** The list has this server, and its first entry has no linked node on this port; or it lacks the server. */
  predicate NothingToReport(servers: seq<Listed>, serverId: string, port: int) {
    forall v :: 0 <= v < |servers| && servers[v].id == serverId
                && (forall j :: 0 <= j < v ==> servers[j].id != serverId)
      ==> forall n :: n in servers[v].nodes ==> !(n.port == Some(port) && n.linkPresent)
  }

  ghost predicate Reports(servers: seq<Listed>, serverId: string, port: int, node: Option<NodeSummary>) {
    if node.None? then NothingToReport(servers, serverId, port)
    else exists v: nat, n: nat :: ReportedAt(servers, serverId, port, node.value, v, n)
  }

  lemma FindsReported(servers: seq<Listed>, serverId: string, port: int)
    ensures Reports(servers, serverId, port, FindCreatedNode(servers, serverId, port))
  {
    var ofServer := (v: Listed) => v.id == serverId;
    var linked := (n: NodeSummary) => n.port == Some(port) && n.linkPresent;
    var v := FindIsFirst(servers, ofServer);
    if Find(servers, ofServer).Some? {
      var n := FindIsFirst(servers[v].nodes, linked);
      if Find(servers[v].nodes, linked).Some? {
        assert ReportedAt(servers, serverId, port, servers[v].nodes[n], v, n);
      }
    } else {
      forall j | 0 <= j < |servers| ensures servers[j].id != serverId {
        assert servers[j] in servers;
      }
    }
  }

  /** After the refresh the page shows the complete step and the node it finds for the captured server and port:
      none exactly when the list has none. */
  lemma RefreshReportsNode(s: State, i: nat, servers: seq<Listed>)
    requires i < |s.flows| && s.flows[i].pc.AwaitServers?
    ensures var f, t := s.flows[i], Apply(s, Resume(i, ServersAre(servers)));
      && Reports(servers, f.cap.serverId, f.cap.port, t.created)
      && t.step == Complete && !t.submitting
      && |t.flows| == |s.flows| && t.flows[i].pc.Done? && t.flows[i].trail == f.trail + [SawNode(t.created)]
  {
    FindsReported(servers, s.flows[i].cap.serverId, s.flows[i].cap.port);
  }

  /** What an answer leaves alone: the modal, its form and server; the node outside a refresh; and the lock until
      the flow has ended. */
  lemma AnswersLeaveTheRest(s: State, i: nat, a: Answer)
    requires i < |s.flows|
    ensures var f, t := s.flows[i], Apply(s, Resume(i, a));
      && |t.flows| == |s.flows|
      && t.modalOpen == s.modalOpen && t.selected == s.selected && t.form == s.form
      && (!(f.pc.AwaitServers? && a.ServersAre?) ==> t.created == s.created)
      && t.submitting == (s.submitting && (f.pc.Done? || !t.flows[i].pc.Done?))
      && t.step == if |t.flows[i].steps| > |f.steps| then t.flows[i].steps[|t.flows[i].steps| - 1] else s.step
  {
  }

  // ---------------------------------------------------------------- steps

  function LastStep(f: Flow): Step {
    if f.steps == [] then Idle else f.steps[|f.steps| - 1]
  }

  /** The step a flow wrote last tells where it stands; a finished flow completed exactly when it saw the servers. */
  predicate StepTells(f: Flow) {
    var last := LastStep(f);
    && (!f.pc.Done? ==> f.trail == [] || !f.trail[|f.trail| - 1].SawNode?)
    && match f.pc
       case AwaitCsrf => last == Idle
       case AwaitPreflight => last == PreflightCreate
       case AwaitRead(creating, _, attempt) =>
         last == if creating then (if attempt == 0 then CommandCreate else CommandRunning)
                 else if attempt == 0 then PreflightCreate else PreflightRunning
       case AwaitPlan => last == Plan
       case AwaitCreate => last == CommandCreate
       case AwaitServers => last == Refresh
       case Done => last == if f.trail != [] && f.trail[|f.trail| - 1].SawNode? then Complete else Failed
  }

  lemma TerminalTells(f: Flow, creating: bool, id: string, attempt: nat, status: string)
    requires StepTells(f) && f.pc == AwaitRead(creating, id, attempt)
    ensures StepTells(AfterTerminal(f, creating, id, status))
  {
  }

  lemma ReadTells(f: Flow, creating: bool, id: string, attempt: nat, a: Answer)
    requires StepTells(f) && f.pc == AwaitRead(creating, id, attempt)
    ensures StepTells(AfterRead(f, creating, id, attempt, a))
  {
    if attempt < MAX_READS && a.CommandsAre? && EndsWait(a.commands, id) {
      TerminalTells(f, creating, id, attempt, ListedCommand(a.commands, id).value.status);
    }
  }

  lemma AnsweredTells(f: Flow, a: Answer)
    requires StepTells(f) && !f.pc.Done? && !f.pc.AwaitRead?
    ensures StepTells(Advance(f, a))
  {
  }

  lemma AdvanceTells(f: Flow, a: Answer)
    requires StepTells(f)
    ensures StepTells(Advance(f, a))
  {
    if f.pc.AwaitRead? {
      ReadTells(f, f.pc.creating, f.pc.id, f.pc.attempt, a);
    } else if !f.pc.Done? {
      AnsweredTells(f, a);
    }
  }

  lemma FlowMovesOn(s: State, e: Event, i: nat)
    requires i < |Apply(s, e).flows|
    ensures if i >= |s.flows| then Apply(s, e).flows[i].pc.AwaitCsrf? && Apply(s, e).flows[i].steps == []
                                   && Apply(s, e).flows[i].trail == []
            else Apply(s, e).flows[i] == if e.Resume? && e.i == i then Advance(s.flows[i], e.answer) else s.flows[i]
  {
  }

  /** In every run, the step a flow wrote last tells where it stands. */
  lemma {:induction false} StepsTellWhere(events: seq<Event>, i: nat)
    requires i < |Run(events).flows|
    ensures StepTells(Run(events).flows[i])
  {
    if events == [] {
      FreshRunHasNoFlow();
      assert false;
    } else {
      LastEvent(events);
      StepTellsAfter(events[..|events| - 1], events[|events| - 1], i);
    }
  }

  lemma {:induction false} StepTellsAfter(before: seq<Event>, e: Event, i: nat)
    requires i < |Run(before + [e]).flows|
    ensures StepTells(Run(before + [e]).flows[i])
    decreases |before|
  {
    RunSnoc(before, e);
    FlowMovesOn(Run(before), e, i);
    if i < |Run(before).flows| {
      FreshRunHasNoFlow();
      LastEvent(before);
      StepTellsAfter(before[..|before| - 1], before[|before| - 1], i);
      if e.Resume? && e.i == i {
        AdvanceTells(Run(before).flows[i], e.answer);
      }
    }
  }

  // ---------------------------------------------------------------- the wait

  /** A read ends the wait exactly when the first command of this id in the list is succeeded, failed, expired or
      cancelled. */
  lemma EndsWaitIff(commands: seq<Command>, id: string)
    ensures EndsWait(commands, id) <==>
      exists k :: 0 <= k < |commands| && commands[k].id == id && (forall j :: 0 <= j < k ==> commands[j].id != id)
                  && commands[k].status in {"succeeded", "failed", "expired", "cancelled"}
  {
    var ofId := (c: Command) => c.id == id;
    var k := FindIsFirst(commands, ofId);
    if Find(commands, ofId).None? {
      forall j | 0 <= j < |commands| ensures commands[j].id != id {
        assert commands[j] in commands;
      }
    }
  }
}
