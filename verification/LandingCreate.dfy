/** Creating a direct node on a landing server: preflight, plan, create, one click. The machine makes one step
    per await; the server answers anything or throws, and any number of such flows may be in flight, because
    other handlers of the page write the same `submitting` flag. */
module LandingCreate {
  import opened Text
  import opened Listing
  import Ports

  datatype Server = Server(id: string, workerId: Option<string>, workerOnline: bool)

  datatype Form = Form(nodeName: string, listenPort: string, serverName: string, dest: string, fingerprint: string,
                       protectedCreateConfirmed: bool)

  function DefaultName(port: string): string {
    "liveline-reality-" + port
  }

  const DEFAULT_PORT: string := "27939"

  /** `createEmptyNodePlanForm`. */
  const EMPTY_FORM: Form :=
    Form(DefaultName(DEFAULT_PORT), DEFAULT_PORT, "dash.cloudflare.com", "dash.cloudflare.com:443", "chrome", false)

  const BLOCKED_PORTS: set<int> :=
    {22, 80, 443, 8080, 8443, 18443, 3000, 3200, 8000, 8200, 5432, 6379, 15432, 16379, 10000, 27017}

  predicate AllowedPort(port: int) {
    10000 <= port <= 30000 && port !in BLOCKED_PORTS
  }

  // ---------------------------------------------------------------- the form

  /** `updateNodeListenPort`: a blank name or the default name of the old port follows the new port. */
  function UpdateNodeListenPort(f: Form, value: string): Form {
    f.(listenPort := value,
       nodeName := if Blank(f.nodeName) || f.nodeName == DefaultName(f.listenPort) then DefaultName(value)
                   else f.nodeName,
       protectedCreateConfirmed := false)
  }

  datatype Edit =
    | EditPort(text: string) | EditName(text: string) | EditServerName(text: string) | EditDest(text: string)
    | EditFingerprint(text: string) | EditConfirmed(checked: bool)

  function Edited(f: Form, e: Edit): Form {
    match e
    case EditPort(text) => UpdateNodeListenPort(f, text)
    case EditName(text) => f.(nodeName := text)
    case EditServerName(text) => f.(serverName := text)
    case EditDest(text) => f.(dest := text)
    case EditFingerprint(text) => f.(fingerprint := text)
    case EditConfirmed(checked) => f.(protectedCreateConfirmed := checked)
  }

  /** The form after a run of port edits. */
  function PortEdits(f: Form, ports: seq<string>): Form {
    if ports == [] then f else UpdateNodeListenPort(PortEdits(f, ports[..|ports| - 1]), ports[|ports| - 1])
  }

  /** The name is the default one of the first port or of some port typed before the last. */
  predicate DefaultOfEarlierPort(f: Form, ports: seq<string>) {
    exists k :: 0 <= k < |ports| && f.nodeName == DefaultName(([f.listenPort] + ports)[k])
  }

  lemma DefaultNameIsNotBlank(port: string)
    ensures !Blank(DefaultName(port))
  {
    TrimEndBoundary(DefaultName(port));
  }

  lemma EarlierPortSnoc(f: Form, ports: seq<string>, last: string)
    ensures DefaultOfEarlierPort(f, ports + [last])
            <==> DefaultOfEarlierPort(f, ports)
                 || f.nodeName == DefaultName(if ports == [] then f.listenPort else ports[|ports| - 1])
  {
    var all, more := [f.listenPort] + ports, [f.listenPort] + (ports + [last]);
    assert all[|ports|] == (if ports == [] then f.listenPort else ports[|ports| - 1]);
    assert forall k :: 0 <= k <= |ports| ==> more[k] == all[k];
    if DefaultOfEarlierPort(f, ports + [last]) {
      var k :| 0 <= k < |ports + [last]| && f.nodeName == DefaultName(more[k]);
      assert f.nodeName == DefaultName(all[k]);
    }
    if DefaultOfEarlierPort(f, ports) {
      var k :| 0 <= k < |ports| && f.nodeName == DefaultName(all[k]);
      assert f.nodeName == DefaultName(more[k]);
    }
    if f.nodeName == DefaultName(all[|ports|]) {
      assert f.nodeName == DefaultName(more[|ports|]);
    }
  }

  /** Closed form of the name after port edits: it follows the last port if it was blank or the default name
      of a port shown before the last edit, and is untouched otherwise. */
  lemma {:induction false} NameFollowsPort(f: Form, ports: seq<string>)
    requires ports != []
    ensures var g := PortEdits(f, ports);
      g == f.(listenPort := ports[|ports| - 1],
              nodeName := if Blank(f.nodeName) || DefaultOfEarlierPort(f, ports)
                          then DefaultName(ports[|ports| - 1]) else f.nodeName,
              protectedCreateConfirmed := false)
  {
    var n := |ports| - 1;
    var before, last := ports[..n], ports[n];
    assert ports == before + [last];
    EarlierPortSnoc(f, before, last);
    if before == [] {
      assert !DefaultOfEarlierPort(f, before);
    } else {
      NameFollowsPort(f, before);
      DefaultNameIsNotBlank(before[|before| - 1]);
    }
  }

  // ---------------------------------------------------------------- requests, answers, flows

  /** The values the closure of a submit holds; `ticked` says when the firewall box was ticked and
      `portEditedAt` when the port was last changed. */
  datatype Capture = Capture(serverId: string, workerId: string, port: int, nodeName: string, serverName: string,
                             dest: string, fingerprint: string, confirmed: bool, tickedAt: nat, portEditedAt: nat)

  function Remark(c: Capture): Option<string> {
    if c.nodeName == "" then None else Some(c.nodeName)
  }

  datatype Request =
    | Preflight(workerId: string, serverId: string)
    | PlanNode(serverId: string, port: int, serverName: string, dest: string, fingerprint: string,
               remark: Option<string>,
               firewallConfirmed: bool)
    | CreateNode(serverId: string, port: int, nodeName: Option<string>, serverName: string, dest: string,
                 fingerprint: string, confirmed: bool)

  function PlanOf(c: Capture): Request {
    PlanNode(c.serverId, c.port, c.serverName, c.dest, c.fingerprint, Remark(c), c.confirmed)
  }

  function CreateOf(c: Capture): Request {
    CreateNode(c.serverId, c.port, Remark(c), c.serverName, c.dest, c.fingerprint, c.confirmed)
  }

  datatype Command = Command(id: string, status: string)

  datatype NodeSummary = NodeSummary(id: string, port: Option<int>, linkPresent: bool)

  datatype Listed = Listed(id: string, nodes: seq<NodeSummary>)

  /** `findCreatedNode`. */
  function FindCreatedNode(servers: seq<Listed>, serverId: string, port: int): Option<NodeSummary> {
    var server := Find(servers, (v: Listed) => v.id == serverId);
    if server.None? then None else Find(server.value.nodes, (n: NodeSummary) => n.port == Some(port) && n.linkPresent)
  }

  datatype Act =
    | Sent(request: Request)
    | SawCommand(workerId: string, id: string)
    | SawTerminal(id: string, status: string)
    | SawPlan(ready: bool)
    | SawNode(node: Option<NodeSummary>)

  datatype Step =
    | Idle | PreflightCreate | PreflightRunning | Plan | CommandCreate | CommandRunning | Refresh | Complete | Failed

  datatype Answer =
    | Threw
    | Refused
    | Token
    | CommandIs(workerId: string, id: string)
    | CommandsAre(commands: seq<Command>)
    | PlanIs(ready: bool)
    | ServersAre(servers: seq<Listed>)

  /** `AwaitRead` waits for read `attempt` of the Worker's command list, or for the last sleep. */
  datatype Pc =
    | AwaitCsrf | AwaitPreflight | AwaitPlan | AwaitCreate
    | AwaitRead(creating: bool, id: string, attempt: nat)
    | AwaitServers
    | Done

  datatype Flow = Flow(cap: Capture, pc: Pc, trail: seq<Act>, steps: seq<Step>) {
    function Wrote(step: Step): Flow {
      this.(steps := steps + [step])
    }
    function At(next: Pc): Flow {
      this.(pc := next)
    }
    function Noted(act: Act): Flow {
      this.(trail := trail + [act])
    }
    function Failing(): Flow {
      Wrote(Failed).At(Done)
    }
  }

  const MAX_READS: nat := 90
  const TERMINAL: set<string> := {"succeeded", "failed", "expired", "cancelled"}

  /** After a wait ended with a terminal command. */
  function AfterTerminal(f: Flow, creating: bool, id: string, status: string): Flow {
    var g := f.Noted(SawTerminal(id, status));
    if status != "succeeded" then g.Failing()
    else if creating then g.Wrote(Refresh).At(AwaitServers)
    else g.Wrote(Plan).Noted(Sent(PlanOf(f.cap))).At(AwaitPlan)
  }

  /** The command as a read shows it, if it is in the list. */
  function ListedCommand(commands: seq<Command>, id: string): Option<Command> {
    Find(commands, (c: Command) => c.id == id)
  }

  /** A read that ends the wait: the command is listed with a terminal status. */
  predicate EndsWait(commands: seq<Command>, id: string) {
    ListedCommand(commands, id).Some? && ListedCommand(commands, id).value.status in TERMINAL
  }

  /** One turn of `waitForWorkerCommandCompletion`. */
  function AfterRead(f: Flow, creating: bool, id: string, attempt: nat, a: Answer): Flow {
    if attempt >= MAX_READS then f.Failing()
    else match a
      case CommandsAre(commands) =>
        if EndsWait(commands, id) then AfterTerminal(f, creating, id, ListedCommand(commands, id).value.status)
        else f.Wrote(if creating then CommandRunning else PreflightRunning).At(AwaitRead(creating, id, attempt + 1))
      case Threw | Refused => f.Failing()
      case _ => f
  }

  function AfterPlan(f: Flow, ready: bool): Flow {
    var g := f.Noted(SawPlan(ready));
    if !ready then g.Failing() else g.Wrote(CommandCreate).Noted(Sent(CreateOf(f.cap))).At(AwaitCreate)
  }

  function AfterServers(f: Flow, servers: seq<Listed>): Flow {
    f.Noted(SawNode(FindCreatedNode(servers, f.cap.serverId, f.cap.port))).Wrote(Complete).At(Done)
  }

  /** A flow after its await resumes; an answer of the wrong shape is no step. */
  function Advance(f: Flow, a: Answer): Flow {
    match f.pc
    case Done => f
    case AwaitRead(creating, id, attempt) => AfterRead(f, creating, id, attempt, a)
    case _ =>
      if a.Threw? || a.Refused? then f.Failing()
      else match (f.pc, a)
        case (AwaitCsrf, Token) =>
          f.Wrote(PreflightCreate).Noted(Sent(Preflight(f.cap.workerId, f.cap.serverId))).At(AwaitPreflight)
        case (AwaitPreflight, CommandIs(w, id)) => f.Noted(SawCommand(w, id)).At(AwaitRead(false, id, 0))
        case (AwaitPlan, PlanIs(ready)) => AfterPlan(f, ready)
        case (AwaitCreate, CommandIs(w, id)) => f.Noted(SawCommand(w, id)).At(AwaitRead(true, id, 0))
        case (AwaitServers, ServersAre(servers)) => AfterServers(f, servers)
        case _ => f
  }

  // ---------------------------------------------------------------- the page

  datatype State = State(modalOpen: bool, selected: Option<Server>, form: Form, submitting: bool, step: Step,
                         created: Option<NodeSummary>, flows: seq<Flow>, now: nat, tickedAt: nat, portEditedAt: nat)

  function Init(): State {
    State(false, None, EMPTY_FORM, false, Idle, None, [], 1, 0, 0)
  }

  /** `Submit(read)`: `read` is what `Number` makes of the port text, `None` when that is no integer. `Busy` is
      any other handler of the page that writes `submitting`. */
  datatype Event =
    | Open(server: Server)
    | Close
    | Change(edit: Edit)
    | Submit(read: Option<int>)
    | Busy(submitting: bool)
    | Resume(i: nat, answer: Answer)

  /** `Number` reads a run of digits as its value; what it makes of other texts is left open. */
  predicate MayRead(text: string, read: Option<int>) {
    Ports.NumberOf(text).Some? ==> read == Ports.NumberOf(text)
  }

  /** The submit button is enabled, and the handler's own checks pass. */
  predicate Submits(s: State, read: Option<int>) {
    && s.modalOpen && s.step != Complete && !s.submitting && s.form.protectedCreateConfirmed
    && s.selected.Some? && s.selected.value.workerId.Some? && s.selected.value.workerOnline
    && MayRead(s.form.listenPort, read) && read.Some? && AllowedPort(read.value)
  }

  function Captured(s: State, read: Option<int>): Capture
    requires Submits(s, read)
  {
    Capture(s.selected.value.id, s.selected.value.workerId.value, read.value, s.form.nodeName, s.form.serverName,
            s.form.dest, s.form.fingerprint, s.form.protectedCreateConfirmed, s.tickedAt, s.portEditedAt)
  }

  /** What open and close leave. */
  function Emptied(s: State): State {
    s.(form := EMPTY_FORM, step := Idle, created := None, portEditedAt := s.now)
  }

  function Resumed(s: State, i: nat, a: Answer): State
    requires i < |s.flows|
  {
    var f, g := s.flows[i], Advance(s.flows[i], a);
    s.(flows := s.flows[i := g],
       step := if |g.steps| > |f.steps| then g.steps[|g.steps| - 1] else s.step,
       created := if f.pc.AwaitServers? && a.ServersAre? then FindCreatedNode(a.servers, f.cap.serverId, f.cap.port)
                  else s.created,
       submitting := s.submitting && !(g.pc.Done? && !f.pc.Done?))
  }

  function Handled(s: State, e: Event): State {
    match e
    case Open(server) => Emptied(s).(modalOpen := true, selected := Some(server))
    case Close => Emptied(s).(modalOpen := false, selected := None)
    case Change(edit) =>
      if s.modalOpen then
        s.(form := Edited(s.form, edit),
           portEditedAt := if edit.EditPort? then s.now else s.portEditedAt,
           tickedAt := if edit.EditConfirmed? && edit.checked then s.now else s.tickedAt)
      else s
    case Submit(read) =>
      if Submits(s, read) then
        s.(submitting := true, created := None, flows := s.flows + [Flow(Captured(s, read), AwaitCsrf, [], [])])
      else s
    case Busy(submitting) => s.(submitting := submitting)
    case Resume(i, a) => if i < |s.flows| then Resumed(s, i, a) else s
  }

  /** One event; an event that is not enabled changes nothing. */
  function Apply(s: State, e: Event): State {
    Handled(s, e).(now := s.now + 1)
  }

  function Run(events: seq<Event>): State {
    if events == [] then Init() else Apply(Run(events[..|events| - 1]), events[|events| - 1])
  }
}
