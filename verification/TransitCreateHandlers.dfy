/** The create and confirm handlers as the straight-line code they are, each run to its end with the replies it
    gets. They leave what the create machine leaves when it is fed the same replies step by step. */
module TransitCreateHandlers {
  import opened Text
  import opened TransitCreate
  import opened TransitCreateRequests
  import opened TransitCreateSafety
  import opened TransitCreateTheorems
  import CommandWait

  /** What the server answers each call with; `None` is an error answer, missing data or an exception. */
  datatype Replies = Replies(
    csrf: bool, readiness: Option<(bool, bool)>, dryRun: Option<DryRun>, approval: Option<Approval>,
    preflight: Option<string>, create: Option<string>, realExecution: Option<string>,
    dryRunWait: CommandWait.World, preflightWait: CommandWait.World, createWait: CommandWait.World,
    lists: Option<Lists>, link: Option<Option<string>>)

  function WaitOf(r: Replies, p: Purpose): CommandWait.World {
    match p
    case DryRunCommand(_) => r.dryRunWait
    case PreflightCommand => r.preflightWait
    case CreateCommand => r.createWait
  }

  /** The answer the await at `pc` resumes with. */
  function AnswerAt(pc: Pc, r: Replies): Answer {
    match pc
    case AwaitCsrf => if r.csrf then CsrfToken else Threw
    case AwaitReadiness => if r.readiness.Some? then ReadinessIs(r.readiness.value.0, r.readiness.value.1) else Refused
    case AwaitDryRun => if r.dryRun.Some? then DryRunIs(r.dryRun.value) else Refused
    case AwaitApproval(_) => if r.approval.Some? then ApprovalIs(r.approval.value) else Refused
    case AwaitPreflight => if r.preflight.Some? then CommandIs(r.preflight.value) else Refused
    case AwaitCreate => if r.create.Some? then CommandIs(r.create.value) else Refused
    case AwaitRealExecution => if r.realExecution.Some? then CommandIs(r.realExecution.value) else Refused
    case AwaitRead(p, _, attempt) => CommandWait.AnswerOf(WaitOf(r, p), attempt)
    case AwaitLists => if r.lists.Some? then ListsAre(r.lists.value) else Threw
    case AwaitLink => if r.link.Some? then LinkIs(r.link.value) else Refused
    case Done => Threw
  }

  /** A bound on the awaits still to come. */
  function Rank(pc: Pc): nat {
    match pc
    case AwaitCsrf => 1000
    case AwaitReadiness | AwaitPreflight => 900
    case AwaitDryRun => 800
    case AwaitApproval(_) | AwaitCreate | AwaitRealExecution => 500
    case AwaitRead(p, _, attempt) =>
      (if p.CreateCommand? then 301 else 601) + (if attempt <= MAX_READS then MAX_READS + 1 - attempt else 0)
    case AwaitLists => 200
    case AwaitLink => 100
    case Done => 0
  }

  lemma ReadRanks(f: Flow, p: Purpose, id: string, attempt: nat, w: CommandWait.World)
    ensures Rank(AfterRead(f, p, id, attempt, CommandWait.AnswerOf(w, attempt)).pc) < Rank(AwaitRead(p, id, attempt))
  {
  }

  lemma AdvanceRanks(f: Flow, r: Replies, pending: set<string>)
    requires !f.pc.Done?
    ensures Rank(Advance(f, AnswerAt(f.pc, r), pending).pc) < Rank(f.pc)
  {
    if f.pc.AwaitRead? {
      ReadRanks(f, f.pc.purpose, f.pc.id, f.pc.attempt, WaitOf(r, f.pc.purpose));
    }
  }

  /** The flow once the replies have been fed to it, await by await, until it is done. */
  function Played(f: Flow, r: Replies, pending: set<string>): Flow
    decreases Rank(f.pc)
  {
    if f.pc.Done? then f
    else
      AdvanceRanks(f, r, pending);
      Played(Advance(f, AnswerAt(f.pc, r), pending), r, pending)
  }

  lemma {:induction false} PlayedKeepsScript(f: Flow, r: Replies, pending: set<string>)
    requires OnScript(f)
    ensures Script(Played(f, r, pending))
    decreases Rank(f.pc)
  {
    if !f.pc.Done? {
      AdvanceRanks(f, r, pending);
      AdvanceKeepsScript(f, AnswerAt(f.pc, r), pending);
      PlayedKeepsScript(Advance(f, AnswerAt(f.pc, r), pending), r, pending);
    }
  }

  lemma {:induction false} PlayedKeepsCapture(f: Flow, r: Replies, pending: set<string>)
    ensures Played(f, r, pending).kind == f.kind && Played(f, r, pending).cap == f.cap
    decreases Rank(f.pc)
  {
    if !f.pc.Done? {
      AdvanceRanks(f, r, pending);
      AdvanceContinues(f, AnswerAt(f.pc, r), pending);
      PlayedKeepsCapture(Advance(f, AnswerAt(f.pc, r), pending), r, pending);
    }
  }

  /** What a flow on its script sends, fed with any replies, carries what it captured. */
  lemma PlayedCarriesCapture(f: Flow, r: Replies, pending: set<string>)
    requires OnScript(f) && (f.kind.CreateFlow? ==> Submittable(f.cap))
    ensures CarriesCapture(Played(f, r, pending))
  {
    PlayedKeepsScript(f, r, pending);
    PlayedKeepsCapture(f, r, pending);
    ScriptCarriesCapture(Played(f, r, pending));
  }

  lemma PlayedRead(f: Flow, p: Purpose, id: string, k: nat, r: Replies, pending: set<string>)
    requires f.pc == AwaitRead(p, id, k) && k <= MAX_READS
    ensures Played(f, r, pending) == Played(AfterRead(f, p, id, k, CommandWait.AnswerOf(WaitOf(r, p), k)), r, pending)
  {
  }

  lemma {:induction false} PlayedWait(f: Flow, p: Purpose, id: string, k: nat, r: Replies, pending: set<string>)
    requires f.pc == AwaitRead(p, id, k) && k <= MAX_READS
    ensures Played(f, r, pending) == Played(CommandWait.Fed(f, p, id, WaitOf(r, p), k), r, pending)
    decreases MAX_READS - k
  {
    var g := AfterRead(f, p, id, k, CommandWait.AnswerOf(WaitOf(r, p), k));
    PlayedRead(f, p, id, k, r, pending);
    if k < MAX_READS && g.pc == AwaitRead(p, id, k + 1) {
      PlayedWait(g, p, id, k + 1, r, pending);
    }
  }

  function Times(step: Step, n: nat): seq<Step> {
    seq(n, _ => step)
  }

  lemma {:induction false} RunningWrites(f: Flow, p: Purpose, id: string, k: nat, n: nat)
    requires k <= n && f.pc == AwaitRead(p, id, k)
    ensures CommandWait.Running(f, p, id, k, n)
            == f.(pc := AwaitRead(p, id, n), steps := f.steps + Times(RunningStep(p), n - k))
    decreases n - k
  {
    if k < n {
      var g := f.Wrote(RunningStep(p)).At(AwaitRead(p, id, k + 1));
      RunningWrites(g, p, id, k + 1, n);
      assert g.steps + Times(RunningStep(p), n - k - 1) == f.steps + Times(RunningStep(p), n - k);
    } else {
      assert f.steps + Times(RunningStep(p), 0) == f.steps;
    }
  }

  /** The wait of a handler: it writes the running step once per absorbed read. */
  method Wait(kind: Kind, cap: Selection, p: Purpose, id: string, trail: seq<Act>, before: seq<Step>, r: Replies,
              pending: set<string>)
    returns (status: Option<string>, steps: seq<Step>)
    ensures Played(Flow(kind, cap, AwaitRead(p, id, 0), trail, before), r, pending)
            == Played(if status.Some? then AfterTerminal(Flow(kind, cap, Done, trail, steps), p, id, status.value)
                      else Flow(kind, cap, Done, trail, steps).Failing(), r, pending)
  {
    var outcome, readCount, running := CommandWait.WaitForTransitCommandCompletion(WaitOf(r, p));
    steps := before + Times(RunningStep(p), running);
    status := if outcome.Returned? then Some(outcome.status) else None;
    ghost var f := Flow(kind, cap, AwaitRead(p, id, 0), trail, before);
    PlayedWait(f, p, id, 0, r, pending);
    CommandWait.FlowWaitsLikeTheLoop(f, p, id, WaitOf(r, p), 0);
    RunningWrites(f, p, id, 0, running);
    EndedIgnoresPc(f.(pc := AwaitRead(p, id, running), steps := steps), p, id, outcome);
  }

  lemma EndedIgnoresPc(f: Flow, p: Purpose, id: string, outcome: CommandWait.Outcome)
    ensures CommandWait.Ended(f, p, id, outcome) == CommandWait.Ended(f.(pc := Done), p, id, outcome)
  {
  }

  // ---------------------------------------------------------------- one await of the machine at a time

  lemma PlayedCsrf(f: Flow, r: Replies, pending: set<string>)
    requires f.pc.AwaitCsrf?
    ensures Played(f, r, pending) == Played(if r.csrf then AfterCsrf(f) else f.Failing(), r, pending)
  {
  }

  lemma PlayedReadiness(f: Flow, r: Replies, pending: set<string>)
    requires f.pc.AwaitReadiness?
    ensures Played(f, r, pending)
            == Played(if r.readiness.Some? then AfterReadiness(f, r.readiness.value.0, r.readiness.value.1)
                      else f.Failing(), r, pending)
  {
  }

  lemma PlayedDryRun(f: Flow, r: Replies, pending: set<string>)
    requires f.pc.AwaitDryRun?
    ensures Played(f, r, pending)
            == Played(if r.dryRun.Some? then AfterCommand(f, DryRunCommand(r.dryRun.value), r.dryRun.value.commandId)
                      else f.Failing(), r, pending)
  {
  }

  lemma PlayedApproval(f: Flow, r: Replies, pending: set<string>)
    requires f.pc.AwaitApproval?
    ensures Played(f, r, pending)
            == Played(if r.approval.Some? then AfterApproval(f, r.approval.value) else f.Failing(), r, pending)
  {
  }

  lemma PlayedPreflight(f: Flow, r: Replies, pending: set<string>)
    requires f.pc.AwaitPreflight?
    ensures Played(f, r, pending)
            == Played(if r.preflight.Some? then AfterCommand(f, PreflightCommand, r.preflight.value)
                      else f.Failing(), r, pending)
  {
  }

  lemma PlayedCreate(f: Flow, r: Replies, pending: set<string>)
    requires f.pc.AwaitCreate? || f.pc.AwaitRealExecution?
    ensures var command := if f.pc.AwaitCreate? then r.create else r.realExecution;
            Played(f, r, pending)
            == Played(if command.Some? then AfterCommand(f, CreateCommand, command.value) else f.Failing(), r, pending)
  {
  }

  lemma PlayedLists(f: Flow, r: Replies, pending: set<string>)
    requires f.pc.AwaitLists?
    ensures Played(f, r, pending)
            == Played(if r.lists.Some? then AfterLists(f, FindCreated(f.cap, LoadedRoutes(f, r.lists.value, pending)))
                      else f.Failing(), r, pending)
  {
  }

  lemma PlayedLink(f: Flow, r: Replies, pending: set<string>)
    requires f.pc.AwaitLink?
    ensures Played(f, r, pending)
            == Played(if r.link.Some? then AfterLink(f, r.link.value) else f.Failing(), r, pending)
  {
  }

  // ---------------------------------------------------------------- the handlers

  /** From the refreshed lists on: find the created route, export its link. */
  method FindAndExport(kind: Kind, cap: Selection, t: seq<Act>, written: seq<Step>, r: Replies, pending: set<string>)
    returns (trail: seq<Act>, steps: seq<Step>)
    ensures Played(Flow(kind, cap, AwaitLists, t, written), r, pending) == Flow(kind, cap, Done, trail, steps)
  {
    trail, steps := t, written;
    PlayedLists(Flow(kind, cap, AwaitLists, trail, steps), r, pending);
    if r.lists.None? {
      steps := steps + [Failed];
      return;
    }
    var routes := if r.lists.value.routes.Some? then VisibleRoutes(r.lists.value.routes.value, pending) else cap.routes;
    var route := FindCreated(cap, routes);
    if route.None? {
      steps := steps + [Failed];
      return;
    }
    trail := trail + [FoundRoute(route.value)];
    steps := steps + [Exporting];
    trail := trail + [Sent(ExportLink(route.value.id))];
    PlayedLink(Flow(kind, cap, AwaitLink, trail, steps), r, pending);
    if r.link.None? {
      steps := steps + [Failed];
      return;
    }
    trail := trail + [SawLink(r.link.value)];
    steps := steps + [Complete];
  }

  /** From the create command on: wait for it, refresh, find and export. */
  method FinishCreate(kind: Kind, cap: Selection, id: string, t: seq<Act>, written: seq<Step>, r: Replies,
                      pending: set<string>)
    returns (trail: seq<Act>, steps: seq<Step>)
    ensures Played(Flow(kind, cap, AwaitRead(CreateCommand, id, 0), t, written), r, pending)
            == Flow(kind, cap, Done, trail, steps)
  {
    trail := t;
    var status;
    status, steps := Wait(kind, cap, CreateCommand, id, trail, written, r, pending);
    if status.None? {
      steps := steps + [Failed];
      return;
    }
    trail := trail + [SawTerminal(id, status.value)];
    if status.value != "succeeded" {
      steps := steps + [Failed];
      return;
    }
    steps := steps + [Refresh];
    trail, steps := FindAndExport(kind, cap, trail, steps, r, pending);
  }

  /** `confirmHaproxyRealCreateFromModal` with the context its closure holds. */
  method ConfirmHaproxyRealCreateFromModal(x: Context, cap: Selection, r: Replies, pending: set<string>)
    returns (trail: seq<Act>, steps: seq<Step>)
    ensures Played(Flow(ConfirmFlow(x), cap, AwaitCsrf, [], [CommandCreate]), r, pending)
            == Flow(ConfirmFlow(x), cap, Done, trail, steps)
    ensures CarriesCapture(Flow(ConfirmFlow(x), cap, Done, trail, steps))
  {
    PlayedCarriesCapture(Flow(ConfirmFlow(x), cap, AwaitCsrf, [], [CommandCreate]), r, pending);
    trail, steps := [], [CommandCreate];
    PlayedCsrf(Flow(ConfirmFlow(x), cap, AwaitCsrf, trail, steps), r, pending);
    if !r.csrf {
      steps := steps + [Failed];
      return;
    }
    trail := trail + [Sent(RealExecutionOf(x))];
    PlayedCreate(Flow(ConfirmFlow(x), cap, AwaitRealExecution, trail, steps), r, pending);
    if r.realExecution.None? {
      steps := steps + [Failed];
      return;
    }
    trail := trail + [SawCommand(r.realExecution.value)];
    trail, steps := FinishCreate(ConfirmFlow(x), cap, r.realExecution.value, trail, steps, r, pending);
  }

  /** The HAProxy branch of the submit handler after the CSRF token: readiness, dry-run, final approval. */
  method PrepareHaproxy(cap: Selection, written: seq<Step>, r: Replies, pending: set<string>)
    returns (trail: seq<Act>, steps: seq<Step>)
    ensures Played(Flow(CreateFlow, cap, AwaitReadiness, [Sent(ReadinessOf(cap))], written), r, pending)
            == Flow(CreateFlow, cap, Done, trail, steps)
    ensures Submittable(cap) && cap.forwarding == HaproxyTcp ==>
              CarriesCapture(Flow(CreateFlow, cap, Done, trail, steps))
  {
    if Submittable(cap) && cap.forwarding == HaproxyTcp {
      PlayedCarriesCapture(Flow(CreateFlow, cap, AwaitReadiness, [Sent(ReadinessOf(cap))], written), r, pending);
    }
    trail, steps := [Sent(ReadinessOf(cap))], written;
    PlayedReadiness(Flow(CreateFlow, cap, AwaitReadiness, trail, steps), r, pending);
    if r.readiness.None? {
      steps := steps + [Failed];
      return;
    }
    var (ready, blocked) := r.readiness.value;
    trail := trail + [SawReadiness(ready, blocked)];
    if !ready || blocked {
      steps := steps + [Failed];
      return;
    }
    steps := steps + [CommandCreate];
    trail := trail + [Sent(DryRunOf(cap))];
    trail, steps := DryRunAndApprove(cap, trail, steps, r, pending);
  }

  method DryRunAndApprove(cap: Selection, t: seq<Act>, written: seq<Step>, r: Replies, pending: set<string>)
    returns (trail: seq<Act>, steps: seq<Step>)
    ensures Played(Flow(CreateFlow, cap, AwaitDryRun, t, written), r, pending)
            == Flow(CreateFlow, cap, Done, trail, steps)
  {
    trail, steps := t, written;
    PlayedDryRun(Flow(CreateFlow, cap, AwaitDryRun, trail, steps), r, pending);
    if r.dryRun.None? {
      steps := steps + [Failed];
      return;
    }
    var dryRun := r.dryRun.value;
    trail := trail + [SawDryRun(dryRun)];
    var status;
    status, steps := Wait(CreateFlow, cap, DryRunCommand(dryRun), dryRun.commandId, trail, steps, r, pending);
    if status.None? {
      steps := steps + [Failed];
      return;
    }
    trail := trail + [SawTerminal(dryRun.commandId, status.value)];
    if status.value != "succeeded" {
      steps := steps + [Failed];
      return;
    }
    trail := trail + [Sent(ApprovalOf(cap, dryRun))];
    PlayedApproval(Flow(CreateFlow, cap, AwaitApproval(dryRun), trail, steps), r, pending);
    if r.approval.None? {
      steps := steps + [Failed];
      return;
    }
    trail := trail + [SawApproval(r.approval.value)];
    steps := steps + [if !r.approval.value.ready || r.approval.value.blocked then Failed else RealCreateConfirm];
  }

  /** The socat branch of the submit handler after the CSRF token: preflight, then create. */
  method PreflightAndCreate(cap: Selection, written: seq<Step>, r: Replies, pending: set<string>)
    returns (trail: seq<Act>, steps: seq<Step>)
    ensures Played(Flow(CreateFlow, cap, AwaitPreflight, [Sent(PreflightOf(cap))], written), r, pending)
            == Flow(CreateFlow, cap, Done, trail, steps)
    ensures Submittable(cap) && cap.forwarding == Socat ==>
              CarriesCapture(Flow(CreateFlow, cap, Done, trail, steps))
  {
    if Submittable(cap) && cap.forwarding == Socat {
      PlayedCarriesCapture(Flow(CreateFlow, cap, AwaitPreflight, [Sent(PreflightOf(cap))], written), r, pending);
    }
    trail, steps := [Sent(PreflightOf(cap))], written;
    PlayedPreflight(Flow(CreateFlow, cap, AwaitPreflight, trail, steps), r, pending);
    if r.preflight.None? {
      steps := steps + [Failed];
      return;
    }
    var id := r.preflight.value;
    trail := trail + [SawCommand(id)];
    var status;
    status, steps := Wait(CreateFlow, cap, PreflightCommand, id, trail, steps, r, pending);
    if status.None? {
      steps := steps + [Failed];
      return;
    }
    trail := trail + [SawTerminal(id, status.value)];
    if status.value != "succeeded" {
      steps := steps + [Failed];
      return;
    }
    steps := steps + [CommandCreate];
    trail := trail + [Sent(CreateOf(cap))];
    PlayedCreate(Flow(CreateFlow, cap, AwaitCreate, trail, steps), r, pending);
    if r.create.None? {
      steps := steps + [Failed];
      return;
    }
    trail := trail + [SawCommand(r.create.value)];
    trail, steps := FinishCreate(CreateFlow, cap, r.create.value, trail, steps, r, pending);
  }

  /** `submitSimplifiedTransitRouteCreate` past its checks, with the values its closure captured. */
  method SubmitSimplifiedTransitRouteCreate(cap: Selection, r: Replies, pending: set<string>)
    returns (trail: seq<Act>, steps: seq<Step>)
    ensures Played(Flow(CreateFlow, cap, AwaitCsrf, [], [PreflightCreate]), r, pending)
            == Flow(CreateFlow, cap, Done, trail, steps)
    ensures Submittable(cap) ==> CarriesCapture(Flow(CreateFlow, cap, Done, trail, steps))
  {
    if Submittable(cap) {
      PlayedCarriesCapture(Flow(CreateFlow, cap, AwaitCsrf, [], [PreflightCreate]), r, pending);
    }
    trail, steps := [], [PreflightCreate];
    PlayedCsrf(Flow(CreateFlow, cap, AwaitCsrf, trail, steps), r, pending);
    if !r.csrf {
      steps := steps + [Failed];
      return;
    }
    assert [] + [Sent(ReadinessOf(cap))] == [Sent(ReadinessOf(cap))]
           && [] + [Sent(PreflightOf(cap))] == [Sent(PreflightOf(cap))];
    if cap.forwarding == HaproxyTcp {
      trail, steps := PrepareHaproxy(cap, steps, r, pending);
    } else {
      trail, steps := PreflightAndCreate(cap, steps, r, pending);
    }
  }
}
