/** The create modal of the transit routes page as a machine over its atomic steps.

    The code between two awaits is one step; a call in flight is a `Flow` with its program counter and the
    values its closure captured. The server answers anything, or throws, at any time; closing the modal
    cancels nothing, so any number of flows may be in flight. */
module TransitCreate {
  import opened Text
  import opened Ports
  import opened Listing

  // ---------------------------------------------------------------- page data

  datatype Forwarding = Socat | HaproxyTcp

  function ForwardingText(m: Forwarding): string {
    match m
    case Socat => "socat"
    case HaproxyTcp => "haproxy_tcp"
  }

  datatype Resource = Resource(id: string, resourceType: string, status: string, displayStatus: string,
                               workerOnline: bool, deleted: bool)

  datatype Node = Node(id: string, status: string, vpsIp: Option<string>, port: Option<int>)

  datatype Route = Route(id: string, resourceId: string, nodeId: string, listenPort: int, targetPort: int,
                         forwardingMethod: string, status: string, deleted: bool)

  datatype RouteForm = RouteForm(routeName: string, resourceId: string, nodeId: string, listenPort: string,
                                 forwarding: Forwarding, firewallConfirmed: bool)

  const DEFAULT_ROUTE_NAME: string := "hk-socat-live-23843"
  const DEFAULT_LISTEN_PORT: string := "23843"
  const EMPTY_FORM: RouteForm := RouteForm(DEFAULT_ROUTE_NAME, "", "", DEFAULT_LISTEN_PORT, Socat, false)

  function DefaultRouteName(m: Forwarding, listenPort: string): string {
    var port := if Blank(listenPort) then DEFAULT_LISTEN_PORT else Trim(listenPort);
    if m == HaproxyTcp then "haproxy-tcp-" + port else DEFAULT_ROUTE_NAME
  }

  predicate Selectable(r: Resource) {
    && r.resourceType == "server"
    && (r.status == "active" || r.workerOnline || r.displayStatus == "online" || r.displayStatus == "worker_online")
  }

  function VisibleRoutes(routes: seq<Route>, pending: set<string>): seq<Route> {
    Filter(routes, (r: Route) => r.id !in pending && !Deleted(r.status) && !r.deleted)
  }

  /** `findTransitPortConflictRoute` finds nothing. */
  predicate NoConflict(routes: seq<Route>, resourceId: string, listenPort: int) {
    forall r :: r in routes ==>
      !(r.resourceId == resourceId && r.listenPort == listenPort && !r.deleted && r.status in ["active", "creating"])
  }

  // ---------------------------------------------------------------- what a render shows and closures capture

  datatype Selection = Selection(
    resourceId: Option<string>, nodeId: Option<string>, listenPort: Option<int>, targetPort: int,
    targetHost: string, routeName: string, displayName: string,
    forwarding: Forwarding, firewallConfirmed: bool, routes: seq<Route>)

  function ResourceId(c: Selection): string {
    if c.resourceId.Some? then c.resourceId.value else ""
  }

  function NodeId(c: Selection): string {
    if c.nodeId.Some? then c.nodeId.value else ""
  }

  function ListenPort(c: Selection): int {
    if c.listenPort.Some? then c.listenPort.value else 0
  }

  /** The route name sent to the server. */
  function PayloadRouteName(form: RouteForm): string {
    if form.forwarding == HaproxyTcp then DefaultRouteName(HaproxyTcp, form.listenPort)
    else if !Blank(form.routeName) then Trim(form.routeName)
    else DefaultRouteName(form.forwarding, form.listenPort)
  }

  function PayloadDisplayName(form: RouteForm): string {
    if !Blank(form.routeName) then Trim(form.routeName) else PayloadRouteName(form)
  }

  /** What the submit handler checks before it starts: the form is complete, the firewall box is ticked and
      no shown route uses the port. */
  predicate Submittable(c: Selection) {
    && c.resourceId.Some? && c.nodeId.Some? && c.listenPort.Some? && c.targetPort > 0
    && c.firewallConfirmed
    && NoConflict(c.routes, c.resourceId.value, c.listenPort.value)
  }

  /** What `findCreatedTransitRoute` looks for. */
  predicate Created(c: Selection, r: Route) {
    && c.resourceId == Some(r.resourceId) && c.nodeId == Some(r.nodeId)
    && c.listenPort == Some(r.listenPort) && r.targetPort == c.targetPort
    && r.forwardingMethod == ForwardingText(c.forwarding)
    && r.status == "active" && !r.deleted
  }

  function FindCreated(c: Selection, routes: seq<Route>): Option<Route> {
    Find(routes, (r: Route) => Created(c, r))
  }

  // ---------------------------------------------------------------- requests, answers, flows

  datatype DryRun = DryRun(commandId: string, routeDisplayName: Option<string>, serviceName: string)

  datatype Approval = Approval(ready: bool, blocked: bool, listenPort: int, targetHost: string, targetPort: int,
                               routeName: string, routeDisplayName: Option<string>)

  /** The context kept for the confirm button; `owner` is the flow that obtained it. */
  datatype Context = Context(owner: nat, resourceId: string, nodeId: string, dryRun: DryRun, approval: Approval)

  datatype Request =
    | Readiness(resourceId: string, nodeId: string, listenPort: int, targetPort: int)
    | DryRunCreate(resourceId: string, nodeId: string, listenPort: int, targetHost: string, targetPort: int,
                   routeName: string, displayName: string)
    | FinalApproval(dryRunCommandId: string, resourceId: string, nodeId: string, listenPort: int,
                    targetHost: string, targetPort: int, routeName: string, displayName: string, serviceName: string)
    | RealExecution(dryRunCommandId: string, resourceId: string, nodeId: string, listenPort: int,
                    targetHost: string, targetPort: int, routeName: string, optionalDisplayName: Option<string>)
    | Preflight(resourceId: string, nodeId: string, listenPort: int, targetPort: int, forwarding: Forwarding)
    | CreateRoute(resourceId: string, nodeId: string, listenPort: int, targetHost: string, targetPort: int,
                  forwarding: Forwarding, routeName: string)
    | ExportLink(routeId: string)

  function ReadinessOf(c: Selection): Request {
    Readiness(ResourceId(c), NodeId(c), ListenPort(c), c.targetPort)
  }

  function DryRunOf(c: Selection): Request {
    DryRunCreate(ResourceId(c), NodeId(c), ListenPort(c), c.targetHost, c.targetPort, c.routeName, c.displayName)
  }

  function ApprovalOf(c: Selection, d: DryRun): Request {
    FinalApproval(d.commandId, ResourceId(c), NodeId(c), ListenPort(c), c.targetHost, c.targetPort, c.routeName,
                  if d.routeDisplayName.Some? then d.routeDisplayName.value else c.displayName, d.serviceName)
  }

  function RealExecutionOf(x: Context): Request {
    RealExecution(x.dryRun.commandId, x.resourceId, x.nodeId, x.approval.listenPort, x.approval.targetHost,
                  x.approval.targetPort, x.approval.routeName,
                  if x.approval.routeDisplayName.Some? then x.approval.routeDisplayName else x.dryRun.routeDisplayName)
  }

  function PreflightOf(c: Selection): Request {
    Preflight(ResourceId(c), NodeId(c), ListenPort(c), c.targetPort, c.forwarding)
  }

  function CreateOf(c: Selection): Request {
    CreateRoute(ResourceId(c), NodeId(c), ListenPort(c), c.targetHost, c.targetPort, c.forwarding, c.routeName)
  }

  /** What a flow did and saw, in order: requests sent, successful answers, the terminal status of each
      command it waited for, and the route it found. */
  datatype Act =
    | Sent(request: Request)
    | SawReadiness(ready: bool, blocked: bool)
    | SawDryRun(dryRun: DryRun)
    | SawApproval(approval: Approval)
    | SawCommand(id: string)
    | SawTerminal(id: string, status: string)
    | FoundRoute(route: Route)
    | SawLink(link: Option<string>)

  datatype Step =
    | Idle | PreflightCreate | PreflightRunning | CommandCreate | CommandRunning | RealCreateConfirm
    | Refresh | Exporting | Complete | Failed

  datatype Lists = Lists(resources: Option<seq<Resource>>, nodes: Option<seq<Node>>, routes: Option<seq<Route>>)

  /** What an await resumes with. `Threw` is an exception or a success answer without the data that is read
      next, `Refused` an error answer. The data of an exported link is stored unread and may be missing. */
  datatype Answer =
    | Threw
    | Refused
    | CsrfToken
    | ReadinessIs(ready: bool, blocked: bool)
    | DryRunIs(dryRun: DryRun)
    | ApprovalIs(approval: Approval)
    | CommandIs(id: string)
    | StatusIs(status: string)
    | NotFound(withinRetryWindow: bool)
    | ListsAre(lists: Lists)
    | LinkIs(link: Option<string>)

  /** The command a flow waits for. */
  datatype Purpose = DryRunCommand(dryRun: DryRun) | PreflightCommand | CreateCommand

  /** `AwaitRead` with `attempt` reads behind it waits for the next read, or for the last sleep when all
      reads are spent. */
  datatype Pc =
    | AwaitCsrf
    | AwaitReadiness | AwaitDryRun | AwaitApproval(dryRun: DryRun)
    | AwaitPreflight | AwaitCreate | AwaitRealExecution
    | AwaitRead(purpose: Purpose, id: string, attempt: nat)
    | AwaitLists | AwaitLink
    | Done

  datatype Kind = CreateFlow | ConfirmFlow(context: Context)

  /** `steps` are the progress steps this flow wrote. */
  datatype Flow = Flow(kind: Kind, cap: Selection, pc: Pc, trail: seq<Act>, steps: seq<Step>) {
    function Wrote(step: Step): Flow {
      this.(steps := steps + [step])
    }
    function At(next: Pc): Flow {
      this.(pc := next)
    }
    function Noted(act: Act): Flow {
      this.(trail := trail + [act])
    }
    function Failing(): Flow {
      Wrote(Failed).At(Done)
    }
    predicate IsHaproxy() {
      kind.ConfirmFlow? || cap.forwarding == HaproxyTcp
    }
  }

  const MAX_READS: nat := 90
  const TERMINAL: set<string> := {"succeeded", "failed", "cancelled", "expired"}

  function RunningStep(p: Purpose): Step {
    if p.PreflightCommand? then PreflightRunning else CommandRunning
  }

  /** After the CSRF token: the first request of the flow. */
  function AfterCsrf(f: Flow): Flow {
    if f.kind.ConfirmFlow? then f.Noted(Sent(RealExecutionOf(f.kind.context))).At(AwaitRealExecution)
    else if f.cap.forwarding == HaproxyTcp then f.Noted(Sent(ReadinessOf(f.cap))).At(AwaitReadiness)
    else f.Noted(Sent(PreflightOf(f.cap))).At(AwaitPreflight)
  }

  function AfterReadiness(f: Flow, ready: bool, blocked: bool): Flow {
    var g := f.Noted(SawReadiness(ready, blocked));
    if !ready || blocked then g.Failing()
    else g.Wrote(CommandCreate).Noted(Sent(DryRunOf(f.cap))).At(AwaitDryRun)
  }

  function AfterApproval(f: Flow, a: Approval): Flow {
    var g := f.Noted(SawApproval(a));
    if !a.ready || a.blocked then g.Failing() else g.Wrote(RealCreateConfirm).At(Done)
  }

  /** After a command was created: wait for it. */
  function AfterCommand(f: Flow, p: Purpose, id: string): Flow {
    f.Noted(if p.DryRunCommand? then SawDryRun(p.dryRun) else SawCommand(id)).At(AwaitRead(p, id, 0))
  }

  /** After a wait ended with a terminal command. */
  function AfterTerminal(f: Flow, p: Purpose, id: string, status: string): Flow {
    var g := f.Noted(SawTerminal(id, status));
    if status != "succeeded" then g.Failing()
    else match p
      case DryRunCommand(d) => g.Noted(Sent(ApprovalOf(f.cap, d))).At(AwaitApproval(d))
      case PreflightCommand => g.Wrote(CommandCreate).Noted(Sent(CreateOf(f.cap))).At(AwaitCreate)
      case CreateCommand => g.Wrote(Refresh).At(AwaitLists)
  }

  /** One turn of `waitForTransitCommandCompletion`. */
  function AfterRead(f: Flow, p: Purpose, id: string, attempt: nat, answer: Answer): Flow {
    if attempt >= MAX_READS then f.Failing()
    else match answer
      case StatusIs(status) =>
        if status in TERMINAL then AfterTerminal(f, p, id, status)
        else f.Wrote(RunningStep(p)).At(AwaitRead(p, id, attempt + 1))
      case NotFound(within) =>
        if within then f.Wrote(RunningStep(p)).At(AwaitRead(p, id, attempt + 1)) else f.Failing()
      case Threw | Refused => f.Failing()
      case _ => f
  }

  /** The routes a load inside a flow yields: the fetched ones, else the ones its closure captured. */
  function LoadedRoutes(f: Flow, lists: Lists, pending: set<string>): seq<Route> {
    if lists.routes.Some? then VisibleRoutes(lists.routes.value, pending) else f.cap.routes
  }

  function AfterLists(f: Flow, found: Option<Route>): Flow {
    if found.None? then f.Failing()
    else f.Noted(FoundRoute(found.value)).Wrote(Exporting).Noted(Sent(ExportLink(found.value.id))).At(AwaitLink)
  }

  function AfterLink(f: Flow, link: Option<string>): Flow {
    f.Noted(SawLink(link)).Wrote(Complete).At(Done)
  }

  /** A flow after its await resumes; an answer of the wrong shape is no step. */
  function Advance(f: Flow, answer: Answer, pending: set<string>): Flow {
    match f.pc
    case Done => f
    case AwaitRead(p, id, attempt) => AfterRead(f, p, id, attempt, answer)
    case _ =>
      if answer.Threw? || answer.Refused? then f.Failing()
      else match (f.pc, answer)
        case (AwaitCsrf, CsrfToken) => AfterCsrf(f)
        case (AwaitReadiness, ReadinessIs(ready, blocked)) => AfterReadiness(f, ready, blocked)
        case (AwaitDryRun, DryRunIs(d)) => AfterCommand(f, DryRunCommand(d), d.commandId)
        case (AwaitApproval(_), ApprovalIs(a)) => AfterApproval(f, a)
        case (AwaitPreflight, CommandIs(id)) => AfterCommand(f, PreflightCommand, id)
        case (AwaitCreate, CommandIs(id)) => AfterCommand(f, CreateCommand, id)
        case (AwaitRealExecution, CommandIs(id)) => AfterCommand(f, CreateCommand, id)
        case (AwaitLists, ListsAre(lists)) => AfterLists(f, FindCreated(f.cap, LoadedRoutes(f, lists, pending)))
        case (AwaitLink, LinkIs(link)) => AfterLink(f, link)
        case _ => f
  }

  // ---------------------------------------------------------------- the page state and its events

  datatype State = State(
    modalOpen: bool,
    form: RouteForm,
    step: Step,
    context: Option<Context>,
    executionLoading: bool,
    createdRoute: Option<Route>,
    link: Option<string>,
    resources: seq<Resource>,
    nodes: seq<Node>,
    routes: seq<Route>,
    pending: set<string>,
    flows: seq<Flow>
  )

  function Init(): State {
    State(false, EMPTY_FORM, Idle, None, false, None, None, [], [], [], {}, [])
  }

  datatype Edit =
    | EditName(text: string) | EditResource(id: string) | EditNode(id: string)
    | EditListenPort(text: string) | EditForwarding(forwarding: Forwarding) | EditFirewall(checked: bool)

  /** `RoutesEdited` stands for the delete and rename handlers of the same page. `Loaded` is any list load
      outside a create flow. */
  datatype Event =
    | Open(draftResourceId: string, draftNodeId: string)
    | Close
    | Change(edit: Edit)
    | Submit
    | Confirm
    | Loaded(lists: Lists)
    | RoutesEdited(routes: seq<Route>, pending: set<string>)
    | Resume(i: nat, answer: Answer)

  function SelectableResources(s: State): seq<Resource> {
    Filter(s.resources, (r: Resource) => Selectable(r))
  }

  function ActiveNodes(s: State): seq<Node> {
    Filter(s.nodes, (n: Node) => n.status == "active")
  }

  /** The values the current render computes and hands to its event handlers. */
  function Rendered(s: State): Selection {
    var resource := FindOrFirst(SelectableResources(s), (r: Resource) => r.id == s.form.resourceId);
    var node := FindOrFirst(ActiveNodes(s), (n: Node) => n.id == s.form.nodeId);
    Selection(if resource.Some? then Some(resource.value.id) else None,
              if node.Some? then Some(node.value.id) else None,
              ParsePortTransit(s.form.listenPort),
              if node.Some? && node.value.port.Some? then node.value.port.value else 0,
              if node.Some? && node.value.vpsIp.Some? then node.value.vpsIp.value else "",
              PayloadRouteName(s.form), PayloadDisplayName(s.form),
              s.form.forwarding, s.form.firewallConfirmed, s.routes)
  }

  /** `createReady`: the submit button is enabled. */
  predicate CreateReady(s: State) {
    && !Blank(s.form.routeName)
    && Submittable(Rendered(s))
    && s.step !in {PreflightCreate, PreflightRunning, CommandCreate, CommandRunning, RealCreateConfirm,
                   Refresh, Exporting}
  }

  /** The modal shows a submit button, and it is enabled. */
  predicate SubmitEnabled(s: State) {
    s.modalOpen && s.step != Complete && CreateReady(s)
  }

  predicate ConfirmEnabled(s: State) {
    s.modalOpen && s.step == RealCreateConfirm && !s.executionLoading && s.context.Some?
  }

  function Edited(f: RouteForm, edit: Edit): RouteForm {
    match edit
    case EditName(text) => f.(routeName := text)
    case EditResource(id) => f.(resourceId := id)
    case EditNode(id) => f.(nodeId := id)
    case EditListenPort(text) =>
      f.(listenPort := text,
         routeName := if f.routeName == DefaultRouteName(f.forwarding, f.listenPort)
                      then DefaultRouteName(f.forwarding, text)
                      else f.routeName)
    case EditForwarding(m) => f.(forwarding := m, routeName := DefaultRouteName(m, f.listenPort))
    case EditFirewall(checked) => f.(firewallConfirmed := checked)
  }

  /** Everything a run of the modal shows is cleared; submit, open and close all do this. */
  function Cleared(s: State, step: Step): State {
    s.(step := step, context := None, executionLoading := false, createdRoute := None, link := None)
  }

  function WithLists(s: State, lists: Lists): State {
    s.(resources := if lists.resources.Some?
                    then Filter(lists.resources.value, (r: Resource) => !Deleted(r.status) && !r.deleted)
                    else s.resources,
       nodes := if lists.nodes.Some? then Filter(lists.nodes.value, (n: Node) => !Deleted(n.status)) else s.nodes,
       routes := if lists.routes.Some? then VisibleRoutes(lists.routes.value, s.pending) else s.routes)
  }

  function OpenForm(s: State, draftResourceId: string, draftNodeId: string): RouteForm {
    var resource := FindOrFirst(SelectableResources(s), (r: Resource) => r.id == draftResourceId);
    var node := FindOrFirst(ActiveNodes(s), (n: Node) => n.id == draftNodeId);
    EMPTY_FORM.(resourceId := if resource.Some? then resource.value.id else "",
                nodeId := if node.Some? then node.value.id else "")
  }

  /** What the page shows once flow `i` came from `f` to `g`: the step it wrote last, the context an approval
      stores, the route and link it found; the end of a confirm flow clears its loading flag. */
  function Shown(s: State, i: nat, f: Flow, g: Flow, answer: Answer): State
    requires i < |s.flows|
    requires f.pc.AwaitLists? && g.pc.AwaitLink? ==> |g.trail| >= 2 && g.trail[|g.trail| - 2].FoundRoute?
  {
    s.(
      flows := s.flows[i := g],
      step := if |g.steps| > |f.steps| then g.steps[|g.steps| - 1] else s.step,
      context := if f.pc.AwaitApproval? && answer.ApprovalIs? && answer.approval.ready && !answer.approval.blocked
                 then Some(Context(i, ResourceId(f.cap), NodeId(f.cap), f.pc.dryRun, answer.approval))
                 else s.context,
      createdRoute := if f.pc.AwaitLists? && g.pc.AwaitLink? then Some(g.trail[|g.trail| - 2].route)
                      else s.createdRoute,
      link := if f.pc.AwaitLink? && answer.LinkIs? then answer.link else s.link,
      executionLoading := if f.kind.ConfirmFlow? && !f.pc.Done? && g.pc.Done? then false else s.executionLoading)
  }

  /** A flow asks for a link only right after it found the route. */
  lemma AdvanceToLink(f: Flow, answer: Answer, pending: set<string>)
    ensures var g := Advance(f, answer, pending);
      f.pc.AwaitLists? && g.pc.AwaitLink? ==> |g.trail| >= 2 && g.trail[|g.trail| - 2].FoundRoute?
  {
  }

  /** The page after flow `i` resumed; a list load writes the lists first. */
  function Resumed(s: State, i: nat, answer: Answer): State
    requires i < |s.flows|
  {
    var f := s.flows[i];
    Shown(if f.pc.AwaitLists? && answer.ListsAre? then WithLists(s, answer.lists) else s,
          i, f, Advance(f, answer, s.pending), answer)
  }

  /** One event; an event that is not enabled changes nothing. */
  function Apply(s: State, e: Event): State {
    match e
    case Open(resourceId, nodeId) => Cleared(s, Idle).(form := OpenForm(s, resourceId, nodeId), modalOpen := true)
    case Close => if s.modalOpen then Cleared(s, Idle).(form := EMPTY_FORM, modalOpen := false) else s
    case Change(edit) => if s.modalOpen then s.(form := Edited(s.form, edit)) else s
    case Submit =>
      if SubmitEnabled(s) then
        Cleared(s, PreflightCreate).(
          flows := s.flows + [Flow(CreateFlow, Rendered(s), AwaitCsrf, [], [PreflightCreate])])
      else s
    case Confirm =>
      if ConfirmEnabled(s) then
        s.(step := CommandCreate, executionLoading := true,
           flows := s.flows + [Flow(ConfirmFlow(s.context.value), Rendered(s), AwaitCsrf, [], [CommandCreate])])
      else s
    case Loaded(lists) => WithLists(s, lists)
    case RoutesEdited(routes, pending) => s.(routes := routes, pending := pending)
    case Resume(i, answer) => if i < |s.flows| then Resumed(s, i, answer) else s
  }

  /** The page after a run of events from a fresh mount. */
  function Run(events: seq<Event>): State {
    if events == [] then Init() else Apply(Run(events[..|events| - 1]), events[|events| - 1])
  }
}
