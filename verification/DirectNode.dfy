/** The direct-node modal: plan first, then create. One mount of the modal is one session; the code between
    two awaits is one step, the server answers anything or throws, and closing the modal cancels nothing. */
module DirectNode {
  import opened Text
  import opened Listing
  import Ports

  datatype Server = Server(id: string, name: string, workerOnline: bool, status: string)

  datatype Confirmation =
    | CloudSecurityGroup | CloudFirewall | ServerFirewall | RealListener
    | NoCloudFirewallChange | NoCutover | RollbackOnly | NoExistingXrayConflict

  const ALL_CONFIRMATIONS: set<Confirmation> :=
    {CloudSecurityGroup, CloudFirewall, ServerFirewall, RealListener, NoCloudFirewallChange, NoCutover, RollbackOnly,
     NoExistingXrayConflict}
  const CONFIRM_TEXT: string := "CONFIRM_CREATE_DIRECT_NODE"

  /** The form; `confirmed` are the ticked boxes. */
  datatype Config = Config(serverId: string, nodeName: string, port: string, serverName: string, dest: string,
                           fingerprint: string, confirmed: set<Confirmation>)

  /** `reasons`: how many blocked reasons the plan lists, `None` when the answer has no such list. */
  datatype Plan = Plan(serverId: string, listenPort: int, ready: bool, reasons: Option<nat>)

  /** `planReady` takes a missing list for an empty one. */
  predicate PlanReady(p: Plan) {
    p.ready && (p.reasons.None? || p.reasons.value == 0)
  }

  /** Reading the length of the missing list of a ready plan throws. */
  predicate LengthThrows(p: Plan) {
    p.ready && p.reasons.None?
  }

  /** What a handler's closure captures and sends. */
  datatype Capture = Capture(serverId: string, port: int, nodeName: string, serverName: string, dest: string,
                             fingerprint: string, confirmed: set<Confirmation>)

  datatype Kind = PlanFlight | CreateFlight(owner: nat, plan: Plan, typed: string)

  datatype Pc = AwaitCsrf | AwaitAnswer | AwaitCompleted | Ended

  /** When a config field and the confirm text were last changed, and when a plan success without data first
      arrived since the text was typed, 0 for never. */
  datatype Times = Times(editedAt: nat, typedAt: nat, lostAt: nat)

  /** A handler run. `at` says when it started, `times` what had happened by then; `answer` is the plan it got. */
  datatype Flight = Flight(kind: Kind, cap: Capture, pc: Pc, answer: Option<Plan>, at: nat, times: Times)

  /** The requests sent and the creates accepted, in order, by flight; `data`: the accepting answer had data. */
  datatype Act = Asked(i: nat) | Accepted(i: nat, data: bool)

  /** `owner` is the flight that brought the held plan; `now` counts events. */
  datatype State = State(
    mounted: bool, servers: seq<Server>, config: Config, plan: Option<Plan>, owner: nat, created: bool,
    exactConfirm: string, submitting: bool, step: nat,
    flights: seq<Flight>, log: seq<Act>, now: nat, times: Times)

  function OnlineServers(s: State): seq<Server> {
    Filter(s.servers, (v: Server) => v.workerOnline && v.status != "deleted")
  }

  function SelectedServer(s: State): Option<Server> {
    FindOrFirst(OnlineServers(s), (v: Server) => v.id == s.config.serverId)
  }

  function Init(servers: seq<Server>): State {
    var online := Filter(servers, (v: Server) => v.workerOnline && v.status != "deleted");
    var id := if online == [] then "" else online[0].id;
    State(true, servers, Config(id, "", "28917", "www.cloudflare.com", "www.cloudflare.com:443", "chrome", {}),
          None, 0, false, "", false, 0, [], [], 1, Times(0, 0, 0))
  }

  /** The port is accepted, the Reality fields are filled in and all boxes are ticked. */
  predicate ConfigReady(c: Config) {
    && Ports.ValidateDirectNodePort(c.port) == None
    && !Blank(c.serverName) && !Blank(c.dest) && !Blank(c.fingerprint)
    && ALL_CONFIRMATIONS <= c.confirmed
  }

  predicate CanRequestPlan(s: State) {
    SelectedServer(s).Some? && ConfigReady(s.config) && !s.submitting && !s.created
  }

  predicate CanCreate(s: State) {
    && SelectedServer(s).Some? && s.plan.Some? && PlanReady(s.plan.value)
    && s.plan.value.serverId == SelectedServer(s).value.id
    && ConfigReady(s.config)
    && Some(s.plan.value.listenPort) == Ports.NumberOf(s.config.port)
    && s.exactConfirm == CONFIRM_TEXT
    && !s.submitting && !s.created
  }

  /** The inputs of the form are rendered and not disabled. */
  predicate CanEdit(s: State) {
    s.mounted && OnlineServers(s) != [] && !s.created && !s.submitting
  }

  predicate CanType(s: State) {
    CanEdit(s) && s.plan.Some? && PlanReady(s.plan.value)
  }

  function Captured(s: State): Capture
    requires SelectedServer(s).Some? && ConfigReady(s.config)
  {
    var server := SelectedServer(s).value;
    Capture(server.id, Ports.NumberOf(s.config.port).value,
            if Blank(s.config.nodeName) then server.name + " \U{76F4}\U{8FDE}\U{8282}\U{70B9}"
            else Trim(s.config.nodeName),
            Trim(s.config.serverName), Trim(s.config.dest), Trim(s.config.fingerprint), s.config.confirmed)
  }

  datatype Edit =
    | EditServer(id: string) | EditName(text: string) | EditPort(text: string) | EditServerName(text: string)
    | EditDest(text: string) | EditFingerprint(text: string) | EditConfirmation(key: Confirmation, checked: bool)

  function Edited(c: Config, e: Edit): Config {
    match e
    case EditServer(id) => c.(serverId := id)
    case EditName(text) => c.(nodeName := text)
    case EditPort(text) => c.(port := text)
    case EditServerName(text) => c.(serverName := text)
    case EditDest(text) => c.(dest := text)
    case EditFingerprint(text) => c.(fingerprint := text)
    case EditConfirmation(key, checked) => c.(confirmed := if checked then c.confirmed + {key} else c.confirmed - {key})
  }

  /** `markConfigDirty`. */
  function Dirtied(s: State): State {
    if s.plan.Some? || s.created then s.(plan := None, created := false, exactConfirm := "", step := 1) else s
  }

  /** `Refused` is an error answer or a missing CSRF token. `NoPlan` and `NoCreated` are success answers without
      data to the plan and the create request. */
  datatype Answer = Threw | Refused | Token | PlanIs(plan: Plan) | NoPlan | Created | NoCreated | Completed

  /** A handler after its await resumes; an answer of the wrong shape is no step. */
  function Advance(f: Flight, a: Answer): Flight {
    match f.pc
    case Ended => f
    case AwaitCompleted => if a.Completed? || a.Threw? then f.(pc := Ended) else f
    case AwaitCsrf => if a.Token? then f.(pc := AwaitAnswer) else if a.Threw? || a.Refused? then f.(pc := Ended) else f
    case AwaitAnswer =>
      if a.Threw? || a.Refused? then f.(pc := Ended)
      else if f.kind.PlanFlight? && a.PlanIs? then f.(pc := Ended, answer := Some(a.plan))
      else if f.kind.PlanFlight? && a.NoPlan? then f.(pc := Ended)
      else if f.kind.CreateFlight? && (a.Created? || a.NoCreated?) then f.(pc := AwaitCompleted)
      else f
  }

  predicate GetsPlan(f: Flight, a: Answer) {
    f.pc.AwaitAnswer? && f.kind.PlanFlight? && a.PlanIs?
  }

  predicate GetsNoPlan(f: Flight, a: Answer) {
    f.pc.AwaitAnswer? && f.kind.PlanFlight? && a.NoPlan?
  }

  /** The create request was answered with success. */
  predicate GetsCreate(f: Flight, a: Answer) {
    f.pc.AwaitAnswer? && f.kind.CreateFlight? && (a.Created? || a.NoCreated?)
  }

  /** The step written for a new plan; an exception comes first when the list of a ready plan is missing. */
  function StepFor(p: Plan, step: nat): nat {
    if LengthThrows(p) then step else if PlanReady(p) && p.reasons.Some? then 3 else 2
  }

  /** The writes of a plan success: a plan, or none, replaces the results; without data an exception comes before
      the step is written. */
  function Planned(s: State, i: nat, a: Answer): State
    requires a.PlanIs? || a.NoPlan?
  {
    if a.PlanIs? then s.(plan := Some(a.plan), owner := i, created := false, step := StepFor(a.plan, s.step))
    else s.(plan := None, created := false,
            times := s.times.(lostAt := if s.times.lostAt == 0 then s.now else s.times.lostAt))
  }

  /** What the mounted modal shows after flight `i` came from `f` to `g`; after an unmount these writes are
      lost. A create success without data leaves no create result, but shows its step. */
  function Shown(s: State, i: nat, f: Flight, g: Flight, a: Answer): State {
    var planned := if GetsPlan(f, a) || GetsNoPlan(f, a) then Planned(s, i, a) else s;
    var made := if GetsCreate(f, a) then planned.(created := a.Created?, step := 5) else planned;
    made.(submitting := made.submitting && !(g.pc.Ended? && !f.pc.Ended?))
  }

  function Resumed(s: State, i: nat, a: Answer): State
    requires i < |s.flights|
  {
    var f := s.flights[i];
    var g := Advance(f, a);
    var shown := if s.mounted then Shown(s, i, f, g, a) else s;
    shown.(flights := s.flights[i := g],
           log := if f.pc.AwaitCsrf? && g.pc.AwaitAnswer? then s.log + [Asked(i)]
                  else if GetsCreate(f, a) then s.log + [Accepted(i, a.Created?)] else s.log)
  }

  /** `Settle` is the effect that replaces a selection that is not online; `NewServers` a new list from the
      page around the modal. */
  datatype Event =
    | NewServers(servers: seq<Server>)
    | Settle
    | Change(edit: Edit)
    | Type(text: string)
    | PlanClick
    | CreateClick
    | Close
    | Resume(i: nat, answer: Answer)

  function SettledId(s: State): string {
    var online := OnlineServers(s);
    if online != [] && !(exists v :: v in online && v.id == s.config.serverId) then online[0].id else s.config.serverId
  }

  function Settled(s: State): State {
    s.(config := s.config.(serverId := SettledId(s)))
  }

  function Started(s: State, kind: Kind): State
    requires SelectedServer(s).Some? && ConfigReady(s.config)
  {
    s.(submitting := true,
       flights := s.flights + [Flight(kind, Captured(s), AwaitCsrf, None, s.now, s.times)])
  }

  /** One event before it is rendered; an event that is not enabled changes nothing. A create click reads the
      list of the plan before it takes the lock. */
  function Handled(s: State, e: Event): State {
    match e
    case NewServers(servers) => s.(servers := servers)
    case Settle => if s.mounted then Settled(s) else s
    case Change(edit) =>
      if CanEdit(s) then Dirtied(s.(config := Edited(s.config, edit), times := s.times.(editedAt := s.now))) else s
    case Type(text) => if CanType(s) then s.(exactConfirm := text, times := Times(s.times.editedAt, s.now, 0)) else s
    case PlanClick => if s.mounted && CanRequestPlan(s) then Started(s, PlanFlight) else s
    case CreateClick =>
      if s.mounted && CanCreate(s) && s.plan.value.reasons.Some? then
        Started(s, CreateFlight(s.owner, s.plan.value, s.exactConfirm)) else s
    case Close => if s.mounted then s.(plan := None, created := false, exactConfirm := "", mounted := false) else s
    case Resume(i, answer) => if i < |s.flights| then Resumed(s, i, answer) else s
  }

  function Ticked(s: State, e: Event): State {
    Handled(s, e).(now := s.now + 1)
  }

  /** The plan summary shows its lists: rendering a plan without its list throws and takes the modal down. */
  function Rendered(s: State): State {
    if s.mounted && s.plan.Some? && s.plan.value.reasons.None? && OnlineServers(s) != [] then
      s.(mounted := false) else s
  }

  function Apply(s: State, e: Event): State {
    Rendered(Ticked(s, e))
  }

  function Run(servers: seq<Server>, events: seq<Event>): State {
    if events == [] then Init(servers) else Apply(Run(servers, events[..|events| - 1]), events[|events| - 1])
  }
}
