/** The promises of the direct-node modal, for every run of one session. */
module DirectNodeTheorems {
  import opened Text
  import opened DirectNode
  import Ports

  // ---------------------------------------------------------------- one handler at a time

  /** Only the last handler may still run, and while the modal is mounted the lock says whether it does. */
  predicate OneLive(flights: seq<Flight>, mounted: bool, submitting: bool) {
    && (forall i :: 0 <= i < |flights| - 1 ==> flights[i].pc.Ended?)
    && (mounted ==> (submitting <==> |flights| > 0 && !flights[|flights| - 1].pc.Ended?))
  }

  /** The captured values are those the form holds, and no field was edited since. */
  predicate StillHolds(c: Config, editedAt: nat, f: Flight) {
    && Ports.NumberOf(c.port) == Some(f.cap.port)
    && f.cap.serverName == Trim(c.serverName) && f.cap.dest == Trim(c.dest) && f.cap.fingerprint == Trim(c.fingerprint)
    && f.cap.confirmed == c.confirmed && ALL_CONFIRMATIONS <= f.cap.confirmed
    && editedAt <= f.at
  }

  /** Flight `p` is the finished plan run that brought `plan`. */
  predicate Brought(flights: seq<Flight>, p: nat, plan: Plan) {
    p < |flights| && flights[p].kind.PlanFlight? && flights[p].pc.Ended? && flights[p].answer == Some(plan)
  }

  /** A held plan was requested with what the form holds now; so was one on its way; a running create uses
      the held plan. */
  predicate PlanHolds(s: State) {
    && (s.plan.Some? ==> Brought(s.flights, s.owner, s.plan.value)
                          && StillHolds(s.config, s.times.editedAt, s.flights[s.owner]))
    && (|s.flights| > 0 ==>
          var f := s.flights[|s.flights| - 1];
          !f.pc.Ended? ==>
            if f.kind.PlanFlight? then StillHolds(s.config, s.times.editedAt, f) else s.plan == Some(f.kind.plan))
  }

  /** No plan success without data came since the confirm text was typed, or no field was edited after the first
      one that did. */
  predicate NotLost(t: Times) {
    t.lostAt == 0 || t.editedAt <= t.lostAt
  }

  /** While a confirm text stands, only edits after a plan success without data can be later than it: every
      other edit drops the text. */
  predicate TextTimes(t: Times) {
    if t.lostAt == 0 then t.typedAt > t.editedAt
    else t.lostAt > t.typedAt && (t.editedAt < t.typedAt || t.editedAt > t.lostAt)
  }

  predicate TextOk(s: State) {
    s.exactConfirm != "" ==> TextTimes(s.times) && (s.times.lostAt == 0 ==> s.plan.Some?)
  }

  predicate Shows(s: State) {
    s.mounted ==> (s.created ==> s.step == 5 && s.plan.Some?) && PlanHolds(s) && TextOk(s)
  }

  /** A create run repeats the plan it was clicked with: that plan was ready and unblocked, came from an earlier
      plan run, and was requested with the same Reality values, all boxes ticked then and now, and no field was
      edited since that request. The confirm text was typed after the last edit exactly when no field was edited
      after a plan success without data that came since it was typed. */
  predicate CreateJustified(flights: seq<Flight>, f: Flight) {
    f.kind.CreateFlight? ==>
      && var plan := f.kind.plan;
      && plan.ready && plan.reasons == Some(0) && f.cap.serverId == plan.serverId && f.cap.port == plan.listenPort
      && f.kind.typed == CONFIRM_TEXT && (f.times.typedAt > f.times.editedAt <==> NotLost(f.times))
      && ALL_CONFIRMATIONS <= f.cap.confirmed
      && Brought(flights, f.kind.owner, plan)
      && var g := flights[f.kind.owner];
      && g.cap.serverName == f.cap.serverName && g.cap.dest == f.cap.dest && g.cap.fingerprint == f.cap.fingerprint
      && ALL_CONFIRMATIONS <= g.cap.confirmed && f.times.editedAt <= g.at < f.at
  }

  predicate JustifiedAt(flights: seq<Flight>, i: int) {
    0 <= i < |flights| ==> CreateJustified(flights, flights[i])
  }

  ghost predicate AllJustified(flights: seq<Flight>) {
    forall i :: JustifiedAt(flights, i)
  }

  predicate PastRequests(flights: seq<Flight>) {
    forall i :: 0 <= i < |flights| ==> flights[i].pc.Ended? || flights[i].pc.AwaitCompleted?
  }

  /** The last act is a create accepted with data. */
  predicate EndsAccepted(log: seq<Act>) {
    |log| > 0 && log[|log| - 1].Accepted? && log[|log| - 1].data
  }

  /** A create accepted with data is the last act of the session, and every handler is past its requests. */
  predicate AcceptedIsLast(s: State) {
    && (forall k :: 0 <= k < |s.log| && s.log[k].Accepted? && s.log[k].data ==> k == |s.log| - 1)
    && (EndsAccepted(s.log) ==> (s.mounted ==> s.created) && PastRequests(s.flights))
    && (s.mounted && s.created ==> EndsAccepted(s.log))
  }

  /** Times do not lie ahead. */
  predicate Past(s: State) {
    && s.times.editedAt < s.now && s.times.typedAt < s.now && s.times.lostAt < s.now
    && forall i :: 0 <= i < |s.flights| ==> s.flights[i].at < s.now
  }

  ghost predicate Core(s: State) {
    OneLive(s.flights, s.mounted, s.submitting) && Shows(s) && AllJustified(s.flights) && AcceptedIsLast(s)
  }

  ghost predicate Inv(s: State) {
    Core(s) && Past(s)
  }

  // ---------------------------------------------------------------- every event keeps it

  lemma TimeKeeps(s: State)
    requires Inv(s)
    ensures Inv(s.(now := s.now + 1))
  {
  }

  lemma EditedKeeps(s: State, c: Config)
    requires Inv(s) && s.mounted && !s.created && !s.submitting
    ensures Inv(Dirtied(s.(config := c, times := s.times.(editedAt := s.now))).(now := s.now + 1))
  {
  }

  lemma EditKeeps(s: State, edit: Edit)
    requires Inv(s)
    ensures Inv(Ticked(s, Change(edit)))
  {
    if CanEdit(s) {
      EditedKeeps(s, Edited(s.config, edit));
    } else {
      TimeKeeps(s);
    }
  }

  lemma TypeKeeps(s: State, text: string)
    requires Inv(s)
    ensures Inv(Ticked(s, Type(text)))
  {
  }

  lemma SelectKeeps(s: State, id: string)
    requires Inv(s)
    ensures Inv(s.(config := s.config.(serverId := id), now := s.now + 1))
  {
  }

  lemma SettleKeeps(s: State)
    requires Inv(s)
    ensures Inv(Ticked(s, Settle))
  {
    if s.mounted {
      SelectKeeps(s, SettledId(s));
    } else {
      TimeKeeps(s);
    }
  }

  lemma NewServersKeep(s: State, servers: seq<Server>)
    requires Inv(s)
    ensures Inv(Ticked(s, NewServers(servers)))
  {
  }

  lemma CloseKeeps(s: State)
    requires Inv(s)
    ensures Inv(Ticked(s, Close))
  {
  }

  lemma JustifiedStays(before: seq<Flight>, after: seq<Flight>)
    requires AllJustified(before) && |before| <= |after|
    requires forall i :: 0 <= i < |before| && before[i].pc.Ended? ==> after[i] == before[i]
    requires forall i :: 0 <= i < |after| ==>
               if i < |before| then after[i].(pc := before[i].pc, answer := before[i].answer) == before[i]
               else CreateJustified(before, after[i])
    ensures AllJustified(after)
  {
    forall i ensures JustifiedAt(after, i) {
      assert JustifiedAt(before, i);
    }
  }

  lemma AddJustified(flights: seq<Flight>, f: Flight)
    requires AllJustified(flights) && CreateJustified(flights, f)
    ensures AllJustified(flights + [f])
  {
    JustifiedStays(flights, flights + [f]);
  }

  lemma MoveJustified(flights: seq<Flight>, i: nat, a: Answer)
    requires AllJustified(flights) && i < |flights|
    ensures AllJustified(flights[i := Advance(flights[i], a)])
  {
    JustifiedStays(flights, flights[i := Advance(flights[i], a)]);
  }

  lemma StartShows(s: State, kind: Kind)
    requires Inv(s) && s.mounted && !s.submitting && SelectedServer(s).Some? && ConfigReady(s.config)
    requires kind.CreateFlight? ==> s.plan == Some(kind.plan)
    ensures Shows(Started(s, kind))
  {
    var t := Started(s, kind);
    assert t.flights[|s.flights|].cap == Captured(s);
    assert s.plan.Some? ==> t.flights[s.owner] == s.flights[s.owner];
  }

  lemma StartOneLive(s: State, kind: Kind)
    requires Inv(s) && s.mounted && !s.submitting && SelectedServer(s).Some? && ConfigReady(s.config)
    ensures OneLive(Started(s, kind).flights, true, true)
  {
  }

  lemma StartAccepted(s: State, kind: Kind)
    requires Inv(s) && s.mounted && !s.submitting && !s.created && SelectedServer(s).Some? && ConfigReady(s.config)
    ensures AcceptedIsLast(Started(s, kind)) && Past(Started(s, kind).(now := s.now + 1))
  {
  }

  lemma StartKeeps(s: State, kind: Kind, f: Flight)
    requires Inv(s) && s.mounted && !s.submitting && !s.created
    requires SelectedServer(s).Some? && ConfigReady(s.config)
    requires f == Flight(kind, Captured(s), AwaitCsrf, None, s.now, s.times)
    requires CreateJustified(s.flights, f) && (kind.CreateFlight? ==> s.plan == Some(kind.plan))
    ensures Inv(Started(s, kind).(now := s.now + 1))
  {
    StartShows(s, kind);
    StartOneLive(s, kind);
    StartAccepted(s, kind);
    AddJustified(s.flights, f);
  }

  lemma CreateClickJustified(s: State, f: Flight)
    requires Inv(s) && s.mounted && CanCreate(s) && s.plan.value.reasons.Some?
    requires f == Flight(CreateFlight(s.owner, s.plan.value, s.exactConfirm), Captured(s), AwaitCsrf, None, s.now,
                         s.times)
    ensures CreateJustified(s.flights, f)
  {
    assert |s.exactConfirm| > 0;
  }

  lemma ResumeEnded(s: State, i: nat, a: Answer)
    requires i < |s.flights| && s.flights[i].pc.Ended?
    ensures Resumed(s, i, a) == s
  {
    assert s.flights[i := s.flights[i]] == s.flights;
  }

  /** The handler that resumes is the last one. */
  lemma ResumeOneLive(s: State, i: nat, a: Answer)
    requires Inv(s) && i < |s.flights| && !s.flights[i].pc.Ended?
    ensures i == |s.flights| - 1
    ensures var t := Resumed(s, i, a); OneLive(t.flights, t.mounted, t.submitting)
  {
  }

  lemma ResumePlanShows(s: State, i: nat, a: Answer)
    requires Inv(s) && s.mounted && i == |s.flights| - 1 && GetsPlan(s.flights[i], a)
    ensures Shows(Resumed(s, i, a))
  {
    var t := Resumed(s, i, a);
    assert t.plan == Some(a.plan) && t.owner == i && !t.created;
    assert t.flights[i] == s.flights[i].(pc := Ended, answer := Some(a.plan));
  }

  lemma ResumeNoPlanShows(s: State, i: nat, a: Answer)
    requires Inv(s) && s.mounted && i == |s.flights| - 1 && GetsNoPlan(s.flights[i], a)
    ensures Shows(Resumed(s, i, a))
  {
    var t := Resumed(s, i, a);
    assert t.plan.None? && !t.created && t.flights[i] == s.flights[i].(pc := Ended);
  }

  lemma ResumeOtherShows(s: State, i: nat, a: Answer)
    requires Inv(s) && s.mounted && i == |s.flights| - 1 && !s.flights[i].pc.Ended?
    requires !GetsPlan(s.flights[i], a) && !GetsNoPlan(s.flights[i], a)
    ensures Shows(Resumed(s, i, a))
  {
    var f, t := s.flights[i], Resumed(s, i, a);
    var g := Advance(f, a);
    assert g.kind == f.kind && g.cap == f.cap && g.at == f.at;
    assert t.flights[i] == g && t.plan == s.plan && t.owner == s.owner && t.config == s.config;
    assert s.plan.Some? ==> t.flights[s.owner] == s.flights[s.owner];
  }

  /** A running handler means that nothing was accepted with data yet. */
  lemma LiveMeansOpen(s: State, i: nat)
    requires AcceptedIsLast(s) && i < |s.flights|
    requires s.flights[i].pc.AwaitCsrf? || s.flights[i].pc.AwaitAnswer?
    ensures !EndsAccepted(s.log) && !(s.mounted && s.created)
    ensures forall k :: 0 <= k < |s.log| && s.log[k].Accepted? ==> !s.log[k].data
  {
    assert !PastRequests(s.flights);
  }

  lemma ResumeRequest(s: State, i: nat, a: Answer)
    requires OneLive(s.flights, s.mounted, s.submitting) && AcceptedIsLast(s) && i == |s.flights| - 1
    requires s.flights[i].pc.AwaitCsrf? || s.flights[i].pc.AwaitAnswer?
    ensures AcceptedIsLast(Resumed(s, i, a))
  {
    LiveMeansOpen(s, i);
  }

  lemma ResumeCompleted(s: State, i: nat, a: Answer)
    requires AcceptedIsLast(s) && i < |s.flights| && s.flights[i].pc.AwaitCompleted?
    ensures AcceptedIsLast(Resumed(s, i, a))
  {
  }

  lemma ResumeAccepted(s: State, i: nat, a: Answer)
    requires Inv(s) && i == |s.flights| - 1 && !s.flights[i].pc.Ended?
    ensures AcceptedIsLast(Resumed(s, i, a))
  {
    if s.flights[i].pc.AwaitCompleted? {
      ResumeCompleted(s, i, a);
    } else {
      ResumeRequest(s, i, a);
    }
  }

  lemma ResumePast(s: State, i: nat, a: Answer)
    requires Past(s) && i < |s.flights|
    ensures Past(Resumed(s, i, a).(now := s.now + 1))
  {
  }

  lemma ResumeKeeps(s: State, i: nat, a: Answer)
    requires Inv(s) && i < |s.flights|
    ensures Core(Resumed(s, i, a))
  {
    if s.flights[i].pc.Ended? {
      ResumeEnded(s, i, a);
    } else {
      ResumeOneLive(s, i, a);
      if s.mounted {
        if GetsPlan(s.flights[i], a) {
          ResumePlanShows(s, i, a);
        } else if GetsNoPlan(s.flights[i], a) {
          ResumeNoPlanShows(s, i, a);
        } else {
          ResumeOtherShows(s, i, a);
        }
      }
      ResumeAccepted(s, i, a);
      MoveJustified(s.flights, i, a);
    }
  }

  lemma PlanClickKeeps(s: State)
    requires Inv(s)
    ensures Inv(Ticked(s, PlanClick))
  {
    if s.mounted && CanRequestPlan(s) {
      StartKeeps(s, PlanFlight, Flight(PlanFlight, Captured(s), AwaitCsrf, None, s.now, s.times));
    } else {
      TimeKeeps(s);
    }
  }

  lemma CreateStartKeeps(s: State)
    requires Inv(s) && s.mounted && CanCreate(s) && s.plan.value.reasons.Some?
    ensures Inv(Started(s, CreateFlight(s.owner, s.plan.value, s.exactConfirm)).(now := s.now + 1))
  {
    var kind := CreateFlight(s.owner, s.plan.value, s.exactConfirm);
    var f := Flight(kind, Captured(s), AwaitCsrf, None, s.now, s.times);
    CreateClickJustified(s, f);
    StartKeeps(s, kind, f);
  }

  lemma CreateClickTicked(s: State)
    ensures Ticked(s, CreateClick) ==
      if s.mounted && CanCreate(s) && s.plan.value.reasons.Some? then
        Started(s, CreateFlight(s.owner, s.plan.value, s.exactConfirm)).(now := s.now + 1)
      else s.(now := s.now + 1)
  {
  }

  lemma CreateClickKeeps(s: State)
    requires Inv(s)
    ensures Inv(Ticked(s, CreateClick))
  {
    CreateClickTicked(s);
    if s.mounted && CanCreate(s) && s.plan.value.reasons.Some? {
      CreateStartKeeps(s);
    } else {
      TimeKeeps(s);
    }
  }

  lemma CoreForgetsTime(s: State, now: nat)
    requires Core(s)
    ensures Core(s.(now := now))
  {
  }

  lemma ResumeInRangeKeeps(s: State, i: nat, a: Answer)
    requires Inv(s) && i < |s.flights|
    ensures Inv(Resumed(s, i, a).(now := s.now + 1))
  {
    ResumeKeeps(s, i, a);
    CoreForgetsTime(Resumed(s, i, a), s.now + 1);
    ResumePast(s, i, a);
  }

  lemma ResumeEventKeeps(s: State, i: nat, a: Answer)
    requires Inv(s)
    ensures Inv(Ticked(s, Resume(i, a)))
  {
    if i < |s.flights| {
      ResumeInRangeKeeps(s, i, a);
    } else {
      TimeKeeps(s);
    }
  }

  lemma TickedKeeps(s: State, e: Event)
    requires Inv(s)
    ensures Inv(Ticked(s, e))
  {
    match e
    case NewServers(servers) => NewServersKeep(s, servers);
    case Settle => SettleKeeps(s);
    case Change(edit) => EditKeeps(s, edit);
    case Type(text) => TypeKeeps(s, text);
    case PlanClick => PlanClickKeeps(s);
    case CreateClick => CreateClickKeeps(s);
    case Close => CloseKeeps(s);
    case Resume(i, a) => ResumeEventKeeps(s, i, a);
  }

  lemma UnmountKeeps(s: State)
    requires Inv(s)
    ensures Inv(s.(mounted := false))
  {
  }

  lemma ApplyKeeps(s: State, e: Event)
    requires Inv(s)
    ensures Inv(Apply(s, e))
  {
    TickedKeeps(s, e);
    UnmountKeeps(Ticked(s, e));
  }

  lemma {:induction false} RunKeeps(servers: seq<Server>, events: seq<Event>)
    ensures Inv(Run(servers, events))
  {
    if events != [] {
      RunKeeps(servers, events[..|events| - 1]);
      ApplyKeeps(Run(servers, events[..|events| - 1]), events[|events| - 1]);
    }
  }

  // ---------------------------------------------------------------- the promises

  /** Acts name handlers of this session; an accepted create is a create handler's, asked for before. */
  predicate LogOk(flights: seq<Flight>, log: seq<Act>) {
    forall k :: 0 <= k < |log| ==>
      && log[k].i < |flights|
      && (log[k].Accepted? ==> flights[log[k].i].kind.CreateFlight? && Asked(log[k].i) in log[..k])
  }

  /** A handler that waits for its answer has asked. */
  predicate WaitsAfterAsking(flights: seq<Flight>, log: seq<Act>) {
    forall i: nat :: i < |flights| && flights[i].pc.AwaitAnswer? ==> Asked(i) in log
  }

  lemma AppendKeepsLog(flights: seq<Flight>, log: seq<Act>, act: Act)
    requires LogOk(flights, log) && act.i < |flights|
    requires act.Accepted? ==> flights[act.i].kind.CreateFlight? && Asked(act.i) in log
    ensures LogOk(flights, log + [act])
  {
    var after := log + [act];
    forall k | 0 <= k < |after| && after[k].Accepted? ensures Asked(after[k].i) in after[..k] {
      assert after[..k] == if k < |log| then log[..k] else log;
    }
  }

  lemma {:induction false} RunKeepsLog(servers: seq<Server>, events: seq<Event>)
    ensures var s := Run(servers, events); LogOk(s.flights, s.log) && WaitsAfterAsking(s.flights, s.log)
  {
    if events != [] {
      RunKeepsLog(servers, events[..|events| - 1]);
      ApplyKeepsLog(Run(servers, events[..|events| - 1]), events[|events| - 1]);
    }
  }

  lemma MoveKeepsLog(flights: seq<Flight>, log: seq<Act>, i: nat, a: Answer)
    requires LogOk(flights, log) && WaitsAfterAsking(flights, log) && i < |flights|
    ensures var g := Advance(flights[i], a);
      && LogOk(flights[i := g], log)
      && ((flights[i].pc.AwaitCsrf? && g.pc.AwaitAnswer?) || WaitsAfterAsking(flights[i := g], log))
      && WaitsAfterAsking(flights[i := g], log + [Asked(i)])
  {
  }

  lemma ResumeKeepsLog(s: State, i: nat, a: Answer)
    requires LogOk(s.flights, s.log) && WaitsAfterAsking(s.flights, s.log) && i < |s.flights|
    ensures var t := Resumed(s, i, a); LogOk(t.flights, t.log) && WaitsAfterAsking(t.flights, t.log)
  {
    var f, g := s.flights[i], Advance(s.flights[i], a);
    MoveKeepsLog(s.flights, s.log, i, a);
    if f.pc.AwaitCsrf? && g.pc.AwaitAnswer? {
      AppendKeepsLog(s.flights[i := g], s.log, Asked(i));
    } else if GetsCreate(f, a) {
      AppendKeepsLog(s.flights[i := g], s.log, Accepted(i, a.Created?));
    }
  }

  lemma StartKeepsLog(flights: seq<Flight>, log: seq<Act>, f: Flight)
    requires LogOk(flights, log) && WaitsAfterAsking(flights, log) && f.pc.AwaitCsrf?
    ensures LogOk(flights + [f], log) && WaitsAfterAsking(flights + [f], log)
  {
  }

  lemma HandledKeepsLog(s: State, e: Event)
    requires LogOk(s.flights, s.log) && WaitsAfterAsking(s.flights, s.log)
    ensures var t := Handled(s, e); LogOk(t.flights, t.log) && WaitsAfterAsking(t.flights, t.log)
  {
    if e.Resume? && e.i < |s.flights| {
      ResumeKeepsLog(s, e.i, e.answer);
    } else if |Handled(s, e).flights| > |s.flights| {
      StartKeepsLog(s.flights, s.log, Handled(s, e).flights[|s.flights|]);
    }
  }

  lemma ApplyMovesLikeHandled(s: State, e: Event)
    ensures Apply(s, e).flights == Handled(s, e).flights && Apply(s, e).log == Handled(s, e).log
  {
  }

  lemma ApplyKeepsLog(s: State, e: Event)
    requires LogOk(s.flights, s.log) && WaitsAfterAsking(s.flights, s.log)
    ensures var t := Apply(s, e); LogOk(t.flights, t.log) && WaitsAfterAsking(t.flights, t.log)
  {
    HandledKeepsLog(s, e);
    ApplyMovesLikeHandled(s, e);
  }

  /** Every request of a create handler, in every run: it repeats a plan that is ready and unblocked and was
      requested with the same Reality values. */
  lemma CreateRequestIsPlanned(servers: seq<Server>, events: seq<Event>, k: nat)
    requires k < |Run(servers, events).log|
    ensures var s := Run(servers, events);
            s.log[k].i < |s.flights| && CreateJustified(s.flights, s.flights[s.log[k].i])
  {
    RunKeeps(servers, events);
    RunKeepsLog(servers, events);
    var s := Run(servers, events);
    assert JustifiedAt(s.flights, s.log[k].i);
  }

  /** Act `k` is the last of the session; no handler will send or get a request any more, and the mounted
      modal offers none. */
  predicate SessionEnded(s: State, k: nat)
    requires k < |s.log|
  {
    && k == |s.log| - 1
    && PastRequests(s.flights)
    && (s.mounted ==> s.step == 5 && !CanRequestPlan(s) && !CanCreate(s) && !CanEdit(s))
  }

  lemma AcceptedEnds(s: State, k: nat)
    requires AcceptedIsLast(s) && Shows(s) && k < |s.log| && s.log[k].Accepted? && s.log[k].data
    ensures SessionEnded(s, k)
  {
  }

  /** Every accepted create was asked for by a create handler. One accepted with data ends the session: no
      further plan or create request is sent, so nothing is accepted after it. */
  lemma NothingAfterAcceptedCreate(servers: seq<Server>, events: seq<Event>, k: nat)
    requires k < |Run(servers, events).log| && Run(servers, events).log[k].Accepted?
    ensures var s := Run(servers, events);
      && (s.log[k].data ==> SessionEnded(s, k))
      && s.log[k].i < |s.flights| && s.flights[s.log[k].i].kind.CreateFlight? && Asked(s.log[k].i) in s.log[..k]
  {
    var s := Run(servers, events);
    RunKeepsLog(servers, events);
    if s.log[k].data {
      assert AcceptedIsLast(s) && Shows(s) by {
        RunKeeps(servers, events);
      }
      AcceptedEnds(s, k);
    }
  }

  /** Once an accepted create has completed, the create button is enabled again exactly when the answer had no
      data and the button would be enabled without the lock. */
  lemma AcceptedReopensIff(s: State, i: nat, a: Answer, last: Answer)
    requires s.mounted && !s.created && i < |s.flights| && GetsCreate(s.flights[i], a)
    requires last.Completed? || last.Threw?
    ensures CanCreate(Ticked(Ticked(s, Resume(i, a)), Resume(i, last)))
            <==> a.NoCreated? && CanCreate(s.(submitting := false))
  {
    var t := Ticked(s, Resume(i, a));
    assert t.flights[i] == s.flights[i].(pc := AwaitCompleted);
    SameButton(s.(submitting := false, created := a.Created?), Ticked(t, Resume(i, last)));
    SameButton(s.(submitting := false), s.(submitting := false, created := false));
  }

  /** What the create button depends on. */
  lemma SameButton(s: State, t: State)
    requires t.servers == s.servers && t.config == s.config && t.plan == s.plan && t.exactConfirm == s.exactConfirm
    requires t.submitting == s.submitting && t.created == s.created
    ensures CanCreate(t) == CanCreate(s)
  {
    assert OnlineServers(t) == OnlineServers(s);
  }

  // ---------------------------------------------------------------- the step shown

  /** The step that fits the results held: 0 or 1 without any, 3 for a plan that counts as ready and 2 for any
      other, 5 for an accepted create. */
  predicate StepFits(s: State) {
    if s.created then s.step == 5
    else if s.plan.None? then s.step <= 1
    else s.step == if PlanReady(s.plan.value) then 3 else 2
  }

  /** What an answer leaves of the step: a plan fits unless its missing list throws on a step other than 3, no
      plan fits a step reached without one, and a create success fits exactly with data. Any other event keeps a
      fitting step, and a change of the form repairs one while a plan is held. */
  predicate FitsNext(s: State, e: Event) {
    if e.Resume? && e.i < |s.flights| && GetsPlan(s.flights[e.i], e.answer) then
      LengthThrows(e.answer.plan) ==> s.step == 3
    else if e.Resume? && e.i < |s.flights| && GetsNoPlan(s.flights[e.i], e.answer) then s.step <= 1
    else if e.Resume? && e.i < |s.flights| && GetsCreate(s.flights[e.i], e.answer) then e.answer.Created?
    else StepFits(s) || (e.Change? && CanEdit(s) && s.plan.Some?)
  }

  lemma ResumeFitsIff(s: State, i: nat, a: Answer)
    requires s.mounted && i < |s.flights|
    ensures StepFits(Resumed(s, i, a)) <==> FitsNext(s, Resume(i, a))
  {
  }

  lemma StepFitsNextIff(s: State, e: Event)
    requires s.mounted && Ticked(s, e).mounted
    ensures StepFits(Ticked(s, e)) <==> FitsNext(s, e)
  {
    if e.Resume? {
      if e.i < |s.flights| {
        ResumeFitsIff(s, e.i, e.answer);
      }
    } else {
      HandlersKeepStep(s, e);
    }
  }

  /** Only a change of the form and an answer touch the results and the step. */
  lemma OthersKeepResults(s: State, e: Event)
    requires s.mounted && !e.Resume? && !e.Change? && Handled(s, e).mounted
    ensures var t := Handled(s, e); t.created == s.created && t.plan == s.plan && t.step == s.step
  {
  }

  lemma ChangeKeepsStep(s: State, edit: Edit)
    requires s.mounted
    ensures StepFits(Handled(s, Change(edit))) <==> StepFits(s) || (CanEdit(s) && s.plan.Some?)
  {
  }

  lemma HandlersKeepStep(s: State, e: Event)
    requires s.mounted && !e.Resume? && Handled(s, e).mounted
    ensures StepFits(Handled(s, e)) <==> StepFits(s) || (e.Change? && CanEdit(s) && s.plan.Some?)
  {
    if e.Change? {
      ChangeKeepsStep(s, e.edit);
    } else {
      OthersKeepResults(s, e);
    }
  }

  /** While the step fits, in every run: a plan answer keeps it so exactly when its list is there or the held
      plan counts as ready too, a plan success without data exactly when no plan was held, and a create success
      exactly when it has data. */
  lemma AnswersKeepStepIff(servers: seq<Server>, events: seq<Event>, i: nat, a: Answer)
    requires var s := Run(servers, events); s.mounted && StepFits(s) && i < |s.flights|
    ensures AnswerKeepsStep(Run(servers, events), i, a)
  {
    RunKeeps(servers, events);
    LiveIsNotCreated(Run(servers, events), i);
    AnswerKeepsStepIn(Run(servers, events), i, a);
  }

  predicate AnswerKeepsStep(s: State, i: nat, a: Answer)
    requires i < |s.flights|
  {
    var fits := StepFits(Ticked(s, Resume(i, a)));
    && (GetsPlan(s.flights[i], a) ==> (fits <==> (LengthThrows(a.plan) ==> s.plan.Some? && PlanReady(s.plan.value))))
    && (GetsNoPlan(s.flights[i], a) ==> (fits <==> s.plan.None?))
    && (GetsCreate(s.flights[i], a) ==> (fits <==> a.Created?))
  }

  lemma FittingStep(s: State)
    requires StepFits(s) && !s.created
    ensures s.step == 3 <==> s.plan.Some? && PlanReady(s.plan.value)
    ensures s.step <= 1 <==> s.plan.None?
  {
  }

  lemma AnswerKeepsStepIn(s: State, i: nat, a: Answer)
    requires s.mounted && StepFits(s) && i < |s.flights| && (s.flights[i].pc.AwaitAnswer? ==> !s.created)
    ensures AnswerKeepsStep(s, i, a)
  {
    if s.flights[i].pc.AwaitAnswer? {
      FittingStep(s);
      ResumeFitsIff(s, i, a);
      assert StepFits(Ticked(s, Resume(i, a))) == StepFits(Resumed(s, i, a));
    }
  }

  lemma LiveIsNotCreated(s: State, i: nat)
    requires Inv(s) && s.mounted && i < |s.flights|
    ensures s.flights[i].pc.AwaitAnswer? ==> !s.created
  {
  }

  /** An answer with its data and its list. */
  predicate WholeAnswer(e: Event) {
    e.Resume? ==> !e.answer.NoPlan? && !e.answer.NoCreated? && (e.answer.PlanIs? ==> !LengthThrows(e.answer.plan))
  }

  predicate NothingLost(s: State) {
    s.times.lostAt == 0 && forall i :: 0 <= i < |s.flights| ==> s.flights[i].times.lostAt == 0
  }

  /** With whole answers, in every run: the step fits, and no plan was ever lost, so that by `CreateJustified`
      every confirm text was typed after the last edit. */
  lemma {:induction false} WholeAnswersFit(servers: seq<Server>, events: seq<Event>)
    requires forall k :: 0 <= k < |events| ==> WholeAnswer(events[k])
    ensures var s := Run(servers, events); (s.mounted ==> StepFits(s)) && NothingLost(s)
  {
    if events != [] {
      var n := |events| - 1;
      WholeAnswersFit(servers, events[..n]);
      WholeAnswerKeeps(Run(servers, events[..n]), events[n]);
    }
  }

  lemma WholeAnswerKeeps(s: State, e: Event)
    requires WholeAnswer(e) && (s.mounted ==> StepFits(s)) && NothingLost(s)
    ensures var t := Apply(s, e); (t.mounted ==> StepFits(t)) && NothingLost(t)
  {
    if Ticked(s, e).mounted {
      StepFitsNextIff(s, e);
    }
    WholeAnswerLosesNothing(s, e);
  }

  lemma ResumeLosesNothing(s: State, i: nat, a: Answer)
    requires NothingLost(s) && i < |s.flights| && !a.NoPlan?
    ensures NothingLost(Resumed(s, i, a))
  {
  }

  lemma WholeAnswerLosesNothing(s: State, e: Event)
    requires WholeAnswer(e) && NothingLost(s)
    ensures NothingLost(Apply(s, e))
  {
    if e.Resume? && e.i < |s.flights| {
      ResumeLosesNothing(s, e.i, e.answer);
    }
    assert Apply(s, e).times == Handled(s, e).times && Apply(s, e).flights == Handled(s, e).flights;
  }

  /** A plan without its list never stays on screen: it is held only while no server is online. */
  lemma {:induction false} PlanWithoutListIsNotShown(servers: seq<Server>, events: seq<Event>)
    ensures var s := Run(servers, events);
            s.mounted && s.plan.Some? && s.plan.value.reasons.None? ==> OnlineServers(s) == []
  {
  }
}
