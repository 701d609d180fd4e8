/** What the direct-node modal shows and sends: its form through edits, the values a click captures, and what every
    plan and create request carries. */
module DirectNodePage {
  import opened Text
  import opened Listing
  import opened DirectNode
  import Ports

  // ---------------------------------------------------------------- what a click captures

  predicate Online(v: Server) {
    v.workerOnline && v.status != "deleted"
  }

  /** Entry `i` of the list is the server selected: the online one of the form's id, else the first online one. */
  predicate SelectedAt(s: State, i: nat) {
    PickedAt(s.servers, (v: Server) => Online(v), (v: Server) => v.id == s.config.serverId, i)
  }

  lemma SelectedServerIsPicked(s: State) returns (i: nat)
    ensures if SelectedServer(s).Some? then SelectedAt(s, i) && s.servers[i] == SelectedServer(s).value
            else forall v :: v in s.servers ==> !Online(v)
  {
    var online, wanted := (v: Server) => Online(v), (v: Server) => v.id == s.config.serverId;
    i := SelectionIsPicked(s.servers, online, wanted);
    SameFilter(s.servers, online, (v: Server) => v.workerOnline && v.status != "deleted");
  }

  lemma {:induction false} SameFilter<T>(xs: seq<T>, keep: T -> bool, same: T -> bool)
    requires forall x :: x in xs ==> keep(x) == same(x)
    ensures Filter(xs, keep) == Filter(xs, same)
  {
    if xs != [] {
      SameFilter(xs[..|xs| - 1], keep, same);
    }
  }

  /** The captured values are what the form shows, trimmed, for the selected server; a blank name becomes the
      server's name with a suffix. */
  predicate ShownAt(s: State, c: Capture, i: nat) {
    && SelectedAt(s, i) && c.serverId == s.servers[i].id
    && c.nodeName == (if Blank(s.config.nodeName) then s.servers[i].name + " \U{76F4}\U{8FDE}\U{8282}\U{70B9}"
                      else Trim(s.config.nodeName))
    && Ports.ParsePortTransit(s.config.port) == Some(c.port)
    && c.serverName == Trim(s.config.serverName) && c.dest == Trim(s.config.dest)
    && c.fingerprint == Trim(s.config.fingerprint) && c.confirmed == s.config.confirmed
  }

  ghost predicate Shown(s: State, c: Capture) {
    exists i: nat :: ShownAt(s, c, i)
  }

  lemma CapturedIsShown(s: State)
    requires SelectedServer(s).Some? && ConfigReady(s.config)
    ensures Shown(s, Captured(s))
  {
    var i := SelectedServerIsPicked(s);
    Ports.DirectNodeCheckIsUnreservedTransitReader(s.config.port);
    assert ShownAt(s, Captured(s), i);
  }

  // ---------------------------------------------------------------- when a click starts a handler

  /** The port text is an unreserved port, the three Reality texts are not blank, and all eight boxes are ticked. */
  predicate FormComplete(c: Config) {
    && Ports.ParsePortTransit(c.port).Some?
    && Ports.ParsePortTransit(c.port).value !in {22, 80, 443, 3000, 3200, 5432, 6379, 8000, 8200, 15432, 16379}
    && !Blank(c.serverName) && !Blank(c.dest) && !Blank(c.fingerprint)
    && (forall k: Confirmation :: k in c.confirmed)
  }

  lemma FormCompleteIff(c: Config)
    ensures ConfigReady(c) <==> FormComplete(c)
  {
    Ports.DirectNodeCheckIsUnreservedTransitReader(c.port);
    AllTicked(c);
  }

  lemma AnyConfirmation(k: Confirmation)
    ensures k in ALL_CONFIRMATIONS
  {
    match k
    case CloudSecurityGroup =>
    case CloudFirewall =>
    case ServerFirewall =>
    case RealListener =>
    case NoCloudFirewallChange =>
    case NoCutover =>
    case RollbackOnly =>
    case NoExistingXrayConflict =>
  }

  lemma AllTicked(c: Config)
    ensures ALL_CONFIRMATIONS <= c.confirmed <==> forall k: Confirmation :: k in c.confirmed
  {
    forall k: Confirmation ensures k in ALL_CONFIRMATIONS {
      AnyConfirmation(k);
    }
  }

  /** Flight `i` is new, waits for its token and holds what the page shows. */
  ghost predicate Starts(s: State, t: State) {
    && |t.flights| == |s.flights| + 1 && t.flights[..|s.flights|] == s.flights && t.submitting
    && t.flights[|s.flights|].pc.AwaitCsrf? && t.flights[|s.flights|].answer.None?
    && Shown(s, t.flights[|s.flights|].cap)
  }

  lemma StartedStarts(s: State, kind: Kind)
    requires SelectedServer(s).Some? && ConfigReady(s.config)
    ensures Starts(s, Started(s, kind)) && Started(s, kind).flights[|s.flights|].kind == kind
  {
    CapturedIsShown(s);
  }

  /** A plan click starts a plan handler exactly when the modal is mounted without lock or result, a server is
      online and the form is complete. */
  lemma PlanStartsIff(s: State)
    ensures var t := Handled(s, PlanClick);
      if s.mounted && !s.submitting && !s.created && (exists v :: v in s.servers && Online(v)) && FormComplete(s.config)
      then Starts(s, t) && t.flights[|s.flights|].kind == PlanFlight
      else t == s
  {
    FormCompleteIff(s.config);
    var i := SelectedServerIsPicked(s);
    if SelectedServer(s).Some? && ConfigReady(s.config) {
      StartedStarts(s, PlanFlight);
    }
  }

  /** The held plan may be created: ready without blocked reasons, for the selected server and the port shown, with
      the confirm text typed. */
  predicate PlanConfirmed(s: State, i: nat) {
    && s.plan.Some? && s.plan.value.ready && s.plan.value.reasons == Some(0)
    && SelectedAt(s, i) && s.plan.value.serverId == s.servers[i].id
    && Ports.ParsePortTransit(s.config.port) == Some(s.plan.value.listenPort)
    && s.exactConfirm == "CONFIRM_CREATE_DIRECT_NODE"
  }

  lemma SelectedIsUnique(s: State, i: nat, j: nat)
    requires SelectedAt(s, i) && SelectedAt(s, j)
    ensures i == j
  {
  }

  lemma CreateEnabledIff(s: State)
    ensures (CanCreate(s) && s.plan.value.reasons.Some?)
            <==> !s.submitting && !s.created && FormComplete(s.config) && exists i: nat :: PlanConfirmed(s, i)
  {
    FormCompleteIff(s.config);
    Ports.DirectNodeCheckIsUnreservedTransitReader(s.config.port);
    var i := SelectedServerIsPicked(s);
    if CanCreate(s) && s.plan.value.reasons.Some? {
      assert PlanConfirmed(s, i);
    }
    if j: nat :| PlanConfirmed(s, j) {
      assert s.servers[j] in s.servers;
      SelectedIsUnique(s, i, j);
    }
  }

  /** A create click starts a create handler exactly when the modal is mounted without lock or result, the form is
      complete and the held plan is confirmed; the handler keeps that plan and the text. */
  lemma CreateStartsIff(s: State)
    ensures var t := Handled(s, CreateClick);
      if s.mounted && !s.submitting && !s.created && FormComplete(s.config) && exists i: nat :: PlanConfirmed(s, i)
      then Starts(s, t) && t.flights[|s.flights|].kind == CreateFlight(s.owner, s.plan.value, s.exactConfirm)
      else t == s
  {
    CreateEnabledIff(s);
    if s.mounted && CanCreate(s) && s.plan.value.reasons.Some? {
      StartedStarts(s, CreateFlight(s.owner, s.plan.value, s.exactConfirm));
    }
  }

  // ---------------------------------------------------------------- what every request carries

  /** Event `k` is the click that started flight `i`, and the page showed then what the flight sends. */
  ghost predicate ClickedAt(servers: seq<Server>, events: seq<Event>, i: nat, k: nat)
    requires i < |Run(servers, events).flights|
  {
    && k < |events| && |Run(servers, events[..k]).flights| == i
    && (if Run(servers, events).flights[i].kind.PlanFlight? then events[k] == PlanClick else events[k] == CreateClick)
    && Shown(Run(servers, events[..k]), Run(servers, events).flights[i].cap)
  }

  lemma RunSnoc(servers: seq<Server>, events: seq<Event>, e: Event)
    ensures Run(servers, events + [e]) == Apply(Run(servers, events), e)
  {
    assert (events + [e])[..|events|] == events;
  }

  lemma ApplyFlights(s: State, e: Event)
    ensures Apply(s, e).flights == Handled(s, e).flights
  {
  }

  lemma OthersStartNothing(s: State, e: Event)
    requires !e.PlanClick? && !e.CreateClick?
    ensures |Handled(s, e).flights| == |s.flights|
  {
  }

  lemma NewFlightIsClicked(s: State, e: Event)
    requires |Apply(s, e).flights| > |s.flights|
    ensures |Apply(s, e).flights| == |s.flights| + 1
    ensures var f := Apply(s, e).flights[|s.flights|];
      (if f.kind.PlanFlight? then e == PlanClick else e == CreateClick) && Shown(s, f.cap)
  {
    ApplyFlights(s, e);
    if e.PlanClick? {
      PlanStartsIff(s);
    } else if e.CreateClick? {
      CreateStartsIff(s);
    } else {
      OthersStartNothing(s, e);
    }
  }

  lemma AdvanceKeepsCapture(f: Flight, a: Answer)
    ensures Advance(f, a).cap == f.cap && Advance(f, a).kind == f.kind
  {
  }

  lemma ResumedFlights(s: State, i: nat, a: Answer)
    requires i < |s.flights|
    ensures Handled(s, Resume(i, a)).flights == s.flights[i := Advance(s.flights[i], a)]
  {
  }

  lemma OthersKeepFlights(s: State, e: Event)
    requires !e.Resume?
    ensures s.flights <= Handled(s, e).flights
  {
  }

  lemma FlightStays(s: State, e: Event, i: nat)
    requires i < |s.flights|
    ensures i < |Apply(s, e).flights|
    ensures Apply(s, e).flights[i].cap == s.flights[i].cap && Apply(s, e).flights[i].kind == s.flights[i].kind
  {
    ApplyFlights(s, e);
    if e.Resume? {
      if e.i < |s.flights| {
        ResumedFlights(s, e.i, e.answer);
        AdvanceKeepsCapture(s.flights[e.i], e.answer);
      }
    } else {
      OthersKeepFlights(s, e);
    }
  }

  lemma ClickStays(servers: seq<Server>, events: seq<Event>, e: Event, i: nat, k: nat)
    requires i < |Run(servers, events).flights| && ClickedAt(servers, events, i, k)
    ensures i < |Run(servers, events + [e]).flights| && ClickedAt(servers, events + [e], i, k)
  {
    RunSnoc(servers, events, e);
    FlightStays(Run(servers, events), e, i);
    assert (events + [e])[..k] == events[..k];
  }

  lemma ClickIsLast(servers: seq<Server>, events: seq<Event>, e: Event)
    requires |Run(servers, events + [e]).flights| > |Run(servers, events).flights|
    ensures |Run(servers, events + [e]).flights| == |Run(servers, events).flights| + 1
    ensures ClickedAt(servers, events + [e], |Run(servers, events).flights|, |events|)
  {
    RunSnoc(servers, events, e);
    NewFlightIsClicked(Run(servers, events), e);
    assert (events + [e])[..|events|] == events;
  }

  lemma LastEvent(events: seq<Event>)
    requires events != []
    ensures events == events[..|events| - 1] + [events[|events| - 1]]
  {
  }

  lemma NewSessionHasNoFlight(servers: seq<Server>)
    ensures Run(servers, []).flights == []
  {
  }

  /** In every run, what a plan or create request carries, its name included, is what the page showed at its click,
      whatever was edited since. */
  lemma {:induction false} RequestsCarryWhatWasShown(servers: seq<Server>, events: seq<Event>, i: nat) returns (k: nat)
    requires i < |Run(servers, events).flights|
    ensures ClickedAt(servers, events, i, k)
  {
    if events == [] {
      NewSessionHasNoFlight(servers);
      assert false;
    } else {
      LastEvent(events);
      k := FlightAfter(servers, events[..|events| - 1], events[|events| - 1], i);
    }
  }

  lemma {:induction false} FlightAfter(servers: seq<Server>, before: seq<Event>, e: Event, i: nat) returns (k: nat)
    requires i < |Run(servers, before + [e]).flights|
    ensures ClickedAt(servers, before + [e], i, k)
    decreases |before|
  {
    if i < |Run(servers, before).flights| {
      NewSessionHasNoFlight(servers);
      LastEvent(before);
      k := FlightAfter(servers, before[..|before| - 1], before[|before| - 1], i);
      ClickStays(servers, before, e, i, k);
    } else {
      ClickIsLast(servers, before, e);
      k := |before|;
    }
  }

  // ---------------------------------------------------------------- the form

  /** An edit writes its own input. */
  lemma EditWritesItsInput(c: Config, e: Edit)
    ensures var g := Edited(c, e);
      && g.serverId == (if e.EditServer? then e.id else c.serverId)
      && g.nodeName == (if e.EditName? then e.text else c.nodeName)
      && g.port == (if e.EditPort? then e.text else c.port)
      && g.serverName == (if e.EditServerName? then e.text else c.serverName)
      && g.dest == (if e.EditDest? then e.text else c.dest)
      && g.fingerprint == (if e.EditFingerprint? then e.text else c.fingerprint)
      && forall k :: k in g.confirmed <==> if e.EditConfirmation? && e.key == k then e.checked else k in c.confirmed
  {
  }

  /** An input is enabled while a server is online and neither a lock nor a result is there. Its edit drops a held
      plan with the confirm text and goes back to step 1; without a plan it writes the form alone. */
  lemma ChangeDropsPlan(s: State, e: Edit)
    ensures var t := Handled(s, Change(e));
      if !(s.mounted && (exists v :: v in s.servers && Online(v)) && !s.created && !s.submitting) then t == s
      else
        && t.config == Edited(s.config, e) && t.plan.None? && !t.created
        && t.exactConfirm == (if s.plan.Some? then "" else s.exactConfirm)
        && t.step == (if s.plan.Some? then 1 else s.step)
        && t.mounted && t.servers == s.servers && t.flights == s.flights && t.log == s.log && !t.submitting
  {
    OnlineIff(s);
  }

  lemma OnlineIff(s: State)
    ensures OnlineServers(s) != [] <==> exists v :: v in s.servers && Online(v)
  {
    if OnlineServers(s) != [] {
      assert OnlineServers(s)[0] in OnlineServers(s);
    }
  }

  /** The confirm text can be typed while a plan is held that counts as ready, and is all that is written. */
  lemma TypeWritesText(s: State, text: string)
    ensures var t := Handled(s, Type(text));
      if s.mounted && (exists v :: v in s.servers && Online(v)) && !s.created && !s.submitting
         && s.plan.Some? && s.plan.value.ready && (s.plan.value.reasons.Some? ==> s.plan.value.reasons.value == 0)
      then t == s.(exactConfirm := text, times := t.times)
      else t == s
  {
    OnlineIff(s);
  }

  /** The effect moves a selection that is not online to the first online server, and nothing else. */
  lemma SettleSelectsOnline(s: State) returns (i: nat)
    ensures var t := Handled(s, Settle);
      && t == s.(config := s.config.(serverId := t.config.serverId))
      && if s.mounted && (exists v :: v in s.servers && Online(v))
            && (forall v :: v in s.servers && Online(v) ==> v.id != s.config.serverId)
         then FirstAt(s.servers, (v: Server) => Online(v), i) && t.config.serverId == s.servers[i].id
         else t.config.serverId == s.config.serverId
  {
    var online := (v: Server) => Online(v);
    i := FirstKept(s.servers, online);
    SameFilter(s.servers, online, (v: Server) => v.workerOnline && v.status != "deleted");
    OnlineIff(s);
  }

  /** A new session shows the first online server, the suggested port and Reality values, no name and no tick. */
  lemma SessionStartsWith(servers: seq<Server>) returns (i: nat)
    ensures var s := Init(servers);
      && s.mounted && s.servers == servers && s.plan.None? && !s.created && s.exactConfirm == "" && !s.submitting
      && s.step == 0 && s.flights == [] && s.log == []
      && s.config.nodeName == "" && s.config.port == "28917" && s.config.serverName == "www.cloudflare.com"
      && s.config.dest == "www.cloudflare.com:443" && s.config.fingerprint == "chrome" && s.config.confirmed == {}
      && if exists v :: v in servers && Online(v)
         then FirstAt(servers, (v: Server) => Online(v), i) && s.config.serverId == servers[i].id
         else s.config.serverId == ""
  {
    var online := (v: Server) => Online(v);
    i := FirstKept(servers, online);
    SameFilter(servers, online, (v: Server) => v.workerOnline && v.status != "deleted");
    OnlineIff(Init(servers));
  }

  /** Closing unmounts and drops plan, result and text; the flights go on. */
  lemma CloseDropsResults(s: State)
    ensures var t := Handled(s, Close);
      if s.mounted then
        && !t.mounted && t.plan.None? && !t.created && t.exactConfirm == ""
        && t.config == s.config && t.servers == s.servers && t.flights == s.flights && t.log == s.log
        && t.step == s.step && t.submitting == s.submitting
      else t == s
  {
  }

  // ---------------------------------------------------------------- what the answers show

  /** A plan answer is held in place of any result, unlocks the modal and keeps the text; the step is 3 for a ready
      plan without blocked reasons and 2 for another, and stays where the list of a ready plan is missing. */
  lemma PlanIsHeld(s: State, i: nat, p: Plan)
    requires s.mounted && i < |s.flights| && s.flights[i].pc.AwaitAnswer? && s.flights[i].kind.PlanFlight?
    ensures var t := Handled(s, Resume(i, PlanIs(p)));
      && t.plan == Some(p) && t.owner == i && !t.created && !t.submitting && t.exactConfirm == s.exactConfirm
      && t.config == s.config && t.mounted
      && t.step == (if !p.ready then 2 else if p.reasons.None? then s.step else if p.reasons.value == 0 then 3 else 2)
  {
  }

  /** A create answer shows the last step, with its result exactly when it has data; the lock stays until the page
      has reloaded. */
  lemma CreateIsShown(s: State, i: nat, a: Answer)
    requires s.mounted && i < |s.flights| && s.flights[i].pc.AwaitAnswer? && s.flights[i].kind.CreateFlight?
    requires a.Created? || a.NoCreated?
    ensures var t := Handled(s, Resume(i, a));
      && t.step == 5 && (t.created <==> a.Created?) && t.submitting == s.submitting && t.plan == s.plan
      && t.exactConfirm == s.exactConfirm && t.config == s.config && t.flights[i].pc.AwaitCompleted?
  {
  }

  /** An error answer or an exception ends the handler and unlocks the modal, and nothing else. */
  lemma FailureUnlocks(s: State, i: nat, a: Answer)
    requires i < |s.flights| && (a.Refused? || a.Threw?)
    requires s.flights[i].pc.AwaitCsrf? || s.flights[i].pc.AwaitAnswer?
    ensures var t := Handled(s, Resume(i, a));
      && t.flights == s.flights[i := s.flights[i].(pc := Ended)]
      && t == s.(flights := t.flights, submitting := s.submitting && !s.mounted)
  {
  }

  /** After an unmount no answer changes what the modal held. */
  lemma UnmountedWritesAreLost(s: State, i: nat, a: Answer)
    requires !s.mounted && i < |s.flights|
    ensures var t := Handled(s, Resume(i, a)); t == s.(flights := t.flights, log := t.log)
  {
  }
}
