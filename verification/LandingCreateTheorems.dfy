/** The promises of the landing-node flow, for every run of the page. */
module LandingCreateTheorems {
  import opened LandingCreate

  /** What was checked and captured at submit. */
  predicate CaptureOk(c: Capture) {
    AllowedPort(c.port) && c.confirmed && c.tickedAt > c.portEditedAt
  }

  /** What a flow may do, in order. */
  predicate Script(f: Flow) {
    var c, t := f.cap, f.trail;
    && |t| <= 9
    && (|t| > 0 ==> t[0] == Sent(Preflight(c.workerId, c.serverId)))
    && (|t| > 1 ==> t[1].SawCommand?)
    && (|t| > 2 ==> t[2].SawTerminal? && t[2].id == t[1].id)
    && (|t| > 3 ==> t[2].status == "succeeded" && t[3] == Sent(PlanOf(c)))
    && (|t| > 4 ==> t[4].SawPlan?)
    && (|t| > 5 ==> t[4].ready && t[5] == Sent(CreateOf(c)))
    && (|t| > 6 ==> t[6].SawCommand?)
    && (|t| > 7 ==> t[7].SawTerminal? && t[7].id == t[6].id)
    && (|t| > 8 ==> t[7].status == "succeeded" && t[8].SawNode?)
  }

  /** Where a flow stands tells how far its script has come. */
  predicate AtScript(f: Flow) {
    var t := f.trail;
    match f.pc
    case AwaitCsrf => |t| == 0
    case AwaitPreflight => |t| == 1
    case AwaitRead(creating, id, attempt) =>
      attempt <= MAX_READS && (if creating then |t| == 7 && t[6].SawCommand? && t[6].id == id
                               else |t| == 2 && t[1].SawCommand? && t[1].id == id)
    case AwaitPlan => |t| == 4
    case AwaitCreate => |t| == 6
    case AwaitServers => |t| == 8 && t[7].SawTerminal? && t[7].status == "succeeded"
    case Done => true
  }

  // ---------------------------------------------------------------- progress

  /** The place of a step on the progress bar; a failure shows none. */
  function Place(step: Step): nat {
    match step
    case Idle => 0
    case PreflightCreate => 1
    case PreflightRunning => 2
    case Plan => 3
    case CommandCreate => 4
    case CommandRunning => 5
    case Refresh => 6
    case Complete => 7
    case Failed => 8
  }

  predicate Rising(steps: seq<Step>) {
    forall i, j :: 0 <= i < j < |steps| ==> Place(steps[i]) <= Place(steps[j])
  }

  /** The last step written is not past the point the flow stands at. */
  predicate Level(f: Flow) {
    forall step :: step in f.steps ==>
      match f.pc
      case AwaitCsrf => false
      case AwaitPreflight => Place(step) <= 1
      case AwaitRead(creating, _, _) => Place(step) <= if creating then 5 else 2
      case AwaitPlan => Place(step) <= 3
      case AwaitCreate => Place(step) <= 4
      case AwaitServers => Place(step) <= 6
      case Done => true
  }

  /** The complete step is written at the end of the script only. */
  predicate CompletesAtEnd(f: Flow) {
    Complete in f.steps ==> f.pc.Done? && |f.trail| == 9
  }

  predicate FlowOk(f: Flow) {
    CaptureOk(f.cap) && Script(f) && AtScript(f) && Rising(f.steps) && Level(f) && CompletesAtEnd(f)
  }

  lemma WroteRises(f: Flow, step: Step)
    requires Rising(f.steps) && forall x :: x in f.steps ==> Place(x) <= Place(step)
    ensures Rising(f.Wrote(step).steps)
  {
  }

  lemma FailingKeeps(f: Flow)
    requires CaptureOk(f.cap) && Script(f) && Rising(f.steps) && Complete !in f.steps
    ensures FlowOk(f.Failing())
  {
    WroteRises(f, Failed);
  }

  lemma TerminalKeeps(f: Flow, creating: bool, id: string, attempt: nat, status: string)
    requires FlowOk(f) && f.pc == AwaitRead(creating, id, attempt)
    ensures FlowOk(AfterTerminal(f, creating, id, status))
  {
    var g := f.Noted(SawTerminal(id, status));
    if status != "succeeded" {
      FailingKeeps(g);
    } else {
      WroteRises(g, if creating then Refresh else Plan);
    }
  }

  lemma ReadKeeps(f: Flow, creating: bool, id: string, attempt: nat, a: Answer)
    requires FlowOk(f) && f.pc == AwaitRead(creating, id, attempt)
    ensures FlowOk(AfterRead(f, creating, id, attempt, a))
  {
    if attempt >= MAX_READS || a.Threw? || a.Refused? {
      FailingKeeps(f);
    } else if a.CommandsAre? {
      if EndsWait(a.commands, id) {
        TerminalKeeps(f, creating, id, attempt, ListedCommand(a.commands, id).value.status);
      } else {
        WroteRises(f, if creating then CommandRunning else PreflightRunning);
      }
    }
  }

  lemma PlanKeeps(f: Flow, ready: bool)
    requires FlowOk(f) && f.pc.AwaitPlan?
    ensures FlowOk(AfterPlan(f, ready))
  {
    var g := f.Noted(SawPlan(ready));
    if !ready {
      FailingKeeps(g);
    } else {
      WroteRises(g, CommandCreate);
    }
  }

  lemma TokenKeeps(f: Flow)
    requires FlowOk(f) && f.pc.AwaitCsrf?
    ensures FlowOk(f.Wrote(PreflightCreate).Noted(Sent(Preflight(f.cap.workerId, f.cap.serverId))).At(AwaitPreflight))
  {
  }

  lemma CommandKeeps(f: Flow, workerId: string, id: string)
    requires FlowOk(f) && (f.pc.AwaitPreflight? || f.pc.AwaitCreate?)
    ensures FlowOk(f.Noted(SawCommand(workerId, id)).At(AwaitRead(f.pc.AwaitCreate?, id, 0)))
  {
  }

  lemma ServersKeep(f: Flow, servers: seq<Listed>)
    requires FlowOk(f) && f.pc.AwaitServers?
    ensures FlowOk(AfterServers(f, servers))
  {
  }

  lemma RequestKeeps(f: Flow, a: Answer)
    requires FlowOk(f) && !f.pc.Done? && !f.pc.AwaitRead? && !a.Threw? && !a.Refused?
    ensures FlowOk(Advance(f, a))
  {
    match (f.pc, a)
    case (AwaitCsrf, Token) => TokenKeeps(f);
    case (AwaitPreflight, CommandIs(w, id)) => CommandKeeps(f, w, id);
    case (AwaitPlan, PlanIs(ready)) => PlanKeeps(f, ready);
    case (AwaitCreate, CommandIs(w, id)) => CommandKeeps(f, w, id);
    case (AwaitServers, ServersAre(servers)) => ServersKeep(f, servers);
    case _ =>
  }

  lemma AdvanceKeeps(f: Flow, a: Answer)
    requires FlowOk(f)
    ensures FlowOk(Advance(f, a)) && Advance(f, a).cap == f.cap
  {
    AdvanceExtends(f, a);
    if f.pc.AwaitRead? {
      ReadKeeps(f, f.pc.creating, f.pc.id, f.pc.attempt, a);
    } else if !f.pc.Done? {
      if a.Threw? || a.Refused? {
        FailingKeeps(f);
      } else {
        RequestKeeps(f, a);
      }
    }
  }

  /** A ticked firewall box was ticked after the last change of the port. */
  predicate TickFollowsPort(s: State) {
    s.form.protectedCreateConfirmed ==> s.tickedAt > s.portEditedAt
  }

  predicate Inv(s: State) {
    && TickFollowsPort(s) && s.portEditedAt < s.now
    && forall i :: 0 <= i < |s.flows| ==> FlowOk(s.flows[i])
  }

  lemma ApplyKeeps(s: State, e: Event)
    requires Inv(s)
    ensures Inv(Apply(s, e))
  {
    if e.Resume? && e.i < |s.flows| {
      AdvanceKeeps(s.flows[e.i], e.answer);
    }
  }

  lemma {:induction false} RunKeeps(events: seq<Event>)
    ensures Inv(Run(events))
  {
    if events != [] {
      RunKeeps(events[..|events| - 1]);
      ApplyKeeps(Run(events[..|events| - 1]), events[|events| - 1]);
    }
  }

  // ---------------------------------------------------------------- the promises

  /** Before the create request, in order: the preflight of the captured Worker and server succeeded, and the
      plan asked for the same server, port, Reality values and name came back ready. */
  predicate CreateIsPlanned(f: Flow, a: nat)
    requires a < |f.trail|
  {
    var t := f.trail;
    && a == 5 && t[5].Sent? && t[5].request.CreateNode? && t[3].Sent? && t[3].request.PlanNode?
    && t[0] == Sent(Preflight(f.cap.workerId, f.cap.serverId))
    && t[1].SawCommand? && t[2] == SawTerminal(t[1].id, "succeeded") && t[4] == SawPlan(true)
    && var plan, create := t[3].request, t[5].request;
    && create.serverId == plan.serverId == f.cap.serverId && create.port == plan.port == f.cap.port
    && create.serverName == plan.serverName && create.dest == plan.dest && create.fingerprint == plan.fingerprint
    && create.nodeName == plan.remark
    && plan.firewallConfirmed && create.confirmed
    && AllowedPort(create.port)
    && f.cap.tickedAt > f.cap.portEditedAt
  }

  lemma ScriptPlansCreate(f: Flow, a: nat)
    requires FlowOk(f) && a < |f.trail| && f.trail[a].Sent? && f.trail[a].request.CreateNode?
    ensures CreateIsPlanned(f, a)
  {
  }

  /** In every run, whatever is edited meanwhile: a create request repeats what its flow captured at submit,
      planned and preflighted, with an allowed port and the firewall box ticked after the last port edit. */
  lemma CreateFollowsPreflightAndPlan(events: seq<Event>, i: nat, a: nat)
    requires i < |Run(events).flows| && a < |Run(events).flows[i].trail|
    requires var act := Run(events).flows[i].trail[a]; act.Sent? && act.request.CreateNode?
    ensures CreateIsPlanned(Run(events).flows[i], a)
  {
    RunKeeps(events);
    ScriptPlansCreate(Run(events).flows[i], a);
  }

  /** The create command of the flow was seen succeeded, and then its node. */
  predicate CreatedNode(f: Flow) {
    && |f.trail| == 9 && f.trail[6].SawCommand? && f.trail[7] == SawTerminal(f.trail[6].id, "succeeded")
    && f.trail[8].SawNode?
  }

  /** The steps a flow writes never go back, and it writes the complete step only at its end, after its create
      command succeeded and its node was seen. */
  lemma ProgressRises(events: seq<Event>, i: nat)
    requires i < |Run(events).flows|
    ensures var f := Run(events).flows[i];
      Rising(f.steps) && (Complete in f.steps ==> f.pc.Done? && CreatedNode(f))
  {
    RunKeeps(events);
    assert FlowOk(Run(events).flows[i]);
  }

  /** What a submit captures stays with its flow, whatever happens later. */
  lemma CaptureStays(s: State, e: Event, i: nat)
    requires i < |s.flows|
    ensures i < |Apply(s, e).flows| && Apply(s, e).flows[i].cap == s.flows[i].cap
            && s.flows[i].trail <= Apply(s, e).flows[i].trail
  {
    if e.Resume? && e.i == i {
      AdvanceExtends(s.flows[i], e.answer);
    }
  }

  lemma AdvanceExtends(f: Flow, a: Answer)
    ensures Advance(f, a).cap == f.cap && f.trail <= Advance(f, a).trail
  {
    if f.pc.AwaitRead? {
      ReadExtends(f, f.pc.creating, f.pc.id, f.pc.attempt, a);
    }
  }

  lemma ReadExtends(f: Flow, creating: bool, id: string, attempt: nat, a: Answer)
    ensures AfterRead(f, creating, id, attempt, a).cap == f.cap
    ensures f.trail <= AfterRead(f, creating, id, attempt, a).trail
  {
  }
}
