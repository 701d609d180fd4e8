/** What every run of the transit create modal keeps. */
module TransitCreateSafety {
  import opened Text
  import opened TransitCreate

  // ---------------------------------------------------------------- what one flow may do, in order

  /** From act `b` on: the create command, its terminal status, the route found, the export. */
  predicate CreateTail(c: Selection, t: seq<Act>, b: nat) {
    && |t| <= b + 5
    && (|t| > b ==> t[b].SawCommand?)
    && (|t| > b + 1 ==> t[b + 1].SawTerminal? && t[b + 1].id == t[b].id)
    && (|t| > b + 2 ==> t[b + 1].status == "succeeded" && t[b + 2].FoundRoute? && Created(c, t[b + 2].route))
    && (|t| > b + 3 ==> t[b + 3] == Sent(ExportLink(t[b + 2].route.id)))
    && (|t| > b + 4 ==> t[b + 4].SawLink?)
  }

  predicate SocatScript(c: Selection, t: seq<Act>) {
    && (|t| > 0 ==> t[0] == Sent(PreflightOf(c)))
    && (|t| > 1 ==> t[1].SawCommand?)
    && (|t| > 2 ==> t[2].SawTerminal? && t[2].id == t[1].id)
    && (|t| > 3 ==> t[2].status == "succeeded" && t[3] == Sent(CreateOf(c)))
    && CreateTail(c, t, 4)
  }

  predicate HaproxyScript(c: Selection, t: seq<Act>) {
    && |t| <= 7
    && (|t| > 0 ==> t[0] == Sent(ReadinessOf(c)))
    && (|t| > 1 ==> t[1].SawReadiness?)
    && (|t| > 2 ==> t[1] == SawReadiness(true, false) && t[2] == Sent(DryRunOf(c)))
    && (|t| > 3 ==> t[3].SawDryRun?)
    && (|t| > 4 ==> t[4].SawTerminal? && t[4].id == t[3].dryRun.commandId)
    && (|t| > 5 ==> t[4].status == "succeeded" && t[5] == Sent(ApprovalOf(c, t[3].dryRun)))
    && (|t| > 6 ==> t[6].SawApproval?)
  }

  predicate ConfirmScript(c: Selection, x: Context, t: seq<Act>) {
    && (|t| > 0 ==> t[0] == Sent(RealExecutionOf(x)))
    && CreateTail(c, t, 1)
  }

  predicate Script(f: Flow) {
    match f.kind
    case ConfirmFlow(x) => ConfirmScript(f.cap, x, f.trail)
    case CreateFlow =>
      if f.cap.forwarding == HaproxyTcp then HaproxyScript(f.cap, f.trail) else SocatScript(f.cap, f.trail)
  }

  /** Where a flow stands tells how far its script has come. */
  predicate AtScript(f: Flow) {
    var t := f.trail;
    var haproxy := f.kind.CreateFlow? && f.cap.forwarding == HaproxyTcp;
    var socat := f.kind.CreateFlow? && f.cap.forwarding == Socat;
    match f.pc
    case AwaitCsrf => |t| == 0
    case AwaitReadiness => haproxy && |t| == 1
    case AwaitDryRun => haproxy && |t| == 3
    case AwaitApproval(d) => haproxy && |t| == 6 && t[3] == SawDryRun(d)
    case AwaitPreflight => socat && |t| == 1
    case AwaitCreate => socat && |t| == 4
    case AwaitRealExecution => f.kind.ConfirmFlow? && |t| == 1
    case AwaitRead(p, id, attempt) =>
      && attempt <= MAX_READS
      && (match p
          case DryRunCommand(d) => haproxy && |t| == 4 && t[3] == SawDryRun(d) && id == d.commandId
          case PreflightCommand => socat && |t| == 2 && t[1] == SawCommand(id)
          case CreateCommand =>
            (socat && |t| == 5 && t[4] == SawCommand(id))
            || (f.kind.ConfirmFlow? && |t| == 2 && t[1] == SawCommand(id)))
    case AwaitLists =>
      || (socat && |t| == 6 && t[5].SawTerminal? && t[5].status == "succeeded")
      || (f.kind.ConfirmFlow? && |t| == 3 && t[2].SawTerminal? && t[2].status == "succeeded")
    case AwaitLink => (socat && |t| == 8) || (f.kind.ConfirmFlow? && |t| == 5)
    case Done => true
  }

  predicate OnScript(f: Flow) {
    Script(f) && AtScript(f)
  }

  lemma CsrfKeepsScript(f: Flow)
    requires OnScript(f) && f.pc.AwaitCsrf?
    ensures OnScript(AfterCsrf(f))
  {
  }

  lemma ReadinessKeepsScript(f: Flow, ready: bool, blocked: bool)
    requires OnScript(f) && f.pc.AwaitReadiness?
    ensures OnScript(AfterReadiness(f, ready, blocked))
  {
  }

  lemma ApprovalKeepsScript(f: Flow, a: Approval)
    requires OnScript(f) && f.pc.AwaitApproval?
    ensures OnScript(AfterApproval(f, a))
  {
  }

  lemma CommandKeepsScript(f: Flow, p: Purpose, id: string)
    requires OnScript(f)
    requires match p
             case DryRunCommand(d) => f.pc.AwaitDryRun? && id == d.commandId
             case PreflightCommand => f.pc.AwaitPreflight?
             case CreateCommand => f.pc.AwaitCreate? || f.pc.AwaitRealExecution?
    ensures OnScript(AfterCommand(f, p, id))
  {
  }

  lemma TerminalKeepsScript(f: Flow, p: Purpose, id: string, attempt: nat, status: string)
    requires OnScript(f) && f.pc == AwaitRead(p, id, attempt)
    ensures OnScript(AfterTerminal(f, p, id, status))
  {
    match p
    case DryRunCommand(d) =>
    case PreflightCommand =>
    case CreateCommand =>
  }

  lemma FailingKeepsScript(f: Flow)
    requires Script(f)
    ensures OnScript(f.Failing())
  {
  }

  lemma ReadingKeepsScript(f: Flow, p: Purpose, id: string, attempt: nat, step: Step)
    requires OnScript(f) && f.pc == AwaitRead(p, id, attempt) && attempt < MAX_READS
    ensures OnScript(f.Wrote(step).At(AwaitRead(p, id, attempt + 1)))
  {
  }

  lemma ListsKeepScript(f: Flow, found: Option<Route>)
    requires OnScript(f) && f.pc.AwaitLists? && (found.Some? ==> Created(f.cap, found.value))
    ensures OnScript(AfterLists(f, found))
  {
  }

  lemma LinkKeepsScript(f: Flow, link: Option<string>)
    requires OnScript(f) && f.pc.AwaitLink?
    ensures OnScript(AfterLink(f, link))
  {
  }

  lemma ReadKeepsScript(f: Flow, p: Purpose, id: string, attempt: nat, answer: Answer)
    requires OnScript(f) && f.pc == AwaitRead(p, id, attempt)
    ensures OnScript(AfterRead(f, p, id, attempt, answer))
  {
    FailingKeepsScript(f);
    if attempt < MAX_READS {
      ReadingKeepsScript(f, p, id, attempt, RunningStep(p));
      if answer.StatusIs? { TerminalKeepsScript(f, p, id, attempt, answer.status); }
    }
  }

  /** The waits for a request that is not yet about the created route. */
  predicate Early(pc: Pc) {
    pc.AwaitCsrf? || pc.AwaitReadiness? || pc.AwaitDryRun? || pc.AwaitApproval?
  }

  lemma EarlyKeepsScript(f: Flow, answer: Answer, pending: set<string>)
    requires OnScript(f) && Early(f.pc)
    ensures OnScript(Advance(f, answer, pending))
  {
    FailingKeepsScript(f);
    match (f.pc, answer)
    case (AwaitCsrf, CsrfToken) => CsrfKeepsScript(f);
    case (AwaitReadiness, ReadinessIs(ready, blocked)) => ReadinessKeepsScript(f, ready, blocked);
    case (AwaitDryRun, DryRunIs(d)) => CommandKeepsScript(f, DryRunCommand(d), d.commandId);
    case (AwaitApproval(_), ApprovalIs(a)) => ApprovalKeepsScript(f, a);
    case _ =>
  }

  lemma CreatedKeepsScript(f: Flow, answer: Answer, pending: set<string>)
    requires OnScript(f) && (f.pc.AwaitPreflight? || f.pc.AwaitCreate? || f.pc.AwaitRealExecution?)
    ensures OnScript(Advance(f, answer, pending))
  {
    FailingKeepsScript(f);
    if answer.CommandIs? {
      CommandKeepsScript(f, if f.pc.AwaitPreflight? then PreflightCommand else CreateCommand, answer.id);
    }
  }

  lemma LateKeepsScript(f: Flow, answer: Answer, pending: set<string>)
    requires OnScript(f) && (f.pc.AwaitLists? || f.pc.AwaitLink?)
    ensures OnScript(Advance(f, answer, pending))
  {
    FailingKeepsScript(f);
    match (f.pc, answer)
    case (AwaitLists, ListsAre(lists)) => ListsKeepScript(f, FindCreated(f.cap, LoadedRoutes(f, lists, pending)));
    case (AwaitLink, LinkIs(link)) => LinkKeepsScript(f, link);
    case _ =>
  }

  /** Whatever is answered, a flow keeps to its script. */
  lemma AdvanceKeepsScript(f: Flow, answer: Answer, pending: set<string>)
    requires OnScript(f)
    ensures OnScript(Advance(f, answer, pending))
  {
    if f.pc.AwaitRead? {
      ReadKeepsScript(f, f.pc.purpose, f.pc.id, f.pc.attempt, answer);
    } else if Early(f.pc) {
      EarlyKeepsScript(f, answer, pending);
    } else if f.pc.AwaitPreflight? || f.pc.AwaitCreate? || f.pc.AwaitRealExecution? {
      CreatedKeepsScript(f, answer, pending);
    } else if !f.pc.Done? {
      LateKeepsScript(f, answer, pending);
    }
  }

  // ---------------------------------------------------------------- progress

  function ProgressSteps(haproxy: bool): seq<Step> {
    [PreflightCreate, PreflightRunning, CommandCreate, CommandRunning]
    + (if haproxy then [RealCreateConfirm] else [])
    + [Refresh, Exporting, Complete]
  }

  /** The position of a step on the progress bar; -1 when it is not on it. */
  function ProgressIndex(haproxy: bool, step: Step): int {
    match step
    case PreflightCreate => 0
    case PreflightRunning => 1
    case CommandCreate => 2
    case CommandRunning => 3
    case RealCreateConfirm => if haproxy then 4 else -1
    case Refresh => if haproxy then 5 else 4
    case Exporting => if haproxy then 6 else 5
    case Complete => if haproxy then 7 else 6
    case Idle | Failed => -1
  }

  lemma ProgressIndexIsPosition(haproxy: bool, step: Step)
    ensures var i := ProgressIndex(haproxy, step);
            if i < 0 then step !in ProgressSteps(haproxy)
            else i < |ProgressSteps(haproxy)| && ProgressSteps(haproxy)[i] == step
                 && forall j :: 0 <= j < i ==> ProgressSteps(haproxy)[j] != step
  {
  }

  /** The highest position a flow can have written so far. */
  function Level(f: Flow): int {
    match f.pc
    case AwaitCsrf => if f.kind.ConfirmFlow? then 2 else 0
    case AwaitReadiness | AwaitPreflight => 0
    case AwaitDryRun | AwaitCreate | AwaitRealExecution => 2
    case AwaitApproval(_) => 3
    case AwaitRead(p, _, _) => if p.PreflightCommand? then 1 else 3
    case AwaitLists => if f.IsHaproxy() then 5 else 4
    case AwaitLink => if f.IsHaproxy() then 6 else 5
    case Done => 7
  }

  /** Steps written in this order never go back on the progress bar, and nothing follows a failure. */
  predicate Rising(haproxy: bool, steps: seq<Step>) {
    && (forall j :: 0 <= j < |steps| - 1 ==> steps[j] != Failed)
    && (forall j, k :: 0 <= j < k < |steps| && steps[k] != Failed ==>
          ProgressIndex(haproxy, steps[j]) <= ProgressIndex(haproxy, steps[k]))
  }

  predicate ProgressOk(f: Flow) {
    && |f.steps| > 0 && f.steps[0] == (if f.kind.ConfirmFlow? then CommandCreate else PreflightCreate)
    && Rising(f.IsHaproxy(), f.steps)
    && (!f.pc.Done? ==> f.steps[|f.steps| - 1] != Failed)
    && ProgressIndex(f.IsHaproxy(), f.steps[|f.steps| - 1]) <= Level(f)
  }

  /** Writing a step that is not behind the last one keeps the order. */
  lemma WroteRises(haproxy: bool, steps: seq<Step>, step: Step)
    requires |steps| > 0 && Rising(haproxy, steps) && steps[|steps| - 1] != Failed
    requires step != Failed ==> ProgressIndex(haproxy, steps[|steps| - 1]) <= ProgressIndex(haproxy, step)
    ensures Rising(haproxy, steps + [step])
  {
    var last := |steps| - 1;
    forall j | 0 <= j < |steps|
      ensures ProgressIndex(haproxy, steps[j]) <= ProgressIndex(haproxy, steps[last])
    {
    }
  }

  /** `g` is `f` after at most one step write, in the place the progress bar allows. */
  predicate WritesOne(f: Flow, g: Flow) {
    && g.kind == f.kind && g.cap == f.cap && (f.pc.Done? ==> g == f)
    && if g.steps == f.steps then (g.pc.Done? ==> f.pc.Done?) && Level(f) <= Level(g)
       else
         && |g.steps| == |f.steps| + 1 && g.steps[..|f.steps|] == f.steps
         && (if g.steps[|f.steps|] == Failed then g.pc.Done?
             else Level(f) <= ProgressIndex(f.IsHaproxy(), g.steps[|f.steps|]) <= Level(g))
  }

  lemma ReadWritesOne(f: Flow, p: Purpose, id: string, attempt: nat, answer: Answer)
    requires AtScript(f) && f.pc == AwaitRead(p, id, attempt)
    ensures WritesOne(f, AfterRead(f, p, id, attempt, answer))
  {
    match p
    case DryRunCommand(d) =>
    case PreflightCommand =>
    case CreateCommand =>
  }

  lemma EarlyWritesOne(f: Flow, answer: Answer, pending: set<string>)
    requires AtScript(f) && Early(f.pc)
    ensures WritesOne(f, Advance(f, answer, pending))
  {
  }

  lemma ListsWriteOne(f: Flow, found: Option<Route>)
    requires AtScript(f) && f.pc.AwaitLists?
    ensures WritesOne(f, AfterLists(f, found)) && WritesOne(f, f) && WritesOne(f, f.Failing())
  {
  }

  lemma LateWritesOne(f: Flow, answer: Answer, pending: set<string>)
    requires AtScript(f) && !Early(f.pc) && !f.pc.AwaitRead?
    ensures WritesOne(f, Advance(f, answer, pending))
  {
    if f.pc.AwaitLists? {
      ListsWriteOne(f, if answer.ListsAre? then FindCreated(f.cap, LoadedRoutes(f, answer.lists, pending)) else None);
    }
  }

  lemma AdvanceWritesOne(f: Flow, answer: Answer, pending: set<string>)
    requires AtScript(f)
    ensures WritesOne(f, Advance(f, answer, pending))
  {
    if f.pc.AwaitRead? {
      ReadWritesOne(f, f.pc.purpose, f.pc.id, f.pc.attempt, answer);
    } else if Early(f.pc) {
      EarlyWritesOne(f, answer, pending);
    } else {
      LateWritesOne(f, answer, pending);
    }
  }

  /** Whatever is answered, the steps a flow writes never go back. */
  lemma AdvanceRises(f: Flow, answer: Answer, pending: set<string>)
    requires AtScript(f) && ProgressOk(f)
    ensures ProgressOk(Advance(f, answer, pending))
  {
    AdvanceWritesOne(f, answer, pending);
    OneWriteRises(f, Advance(f, answer, pending));
  }

  lemma OneWriteRises(f: Flow, g: Flow)
    requires ProgressOk(f) && WritesOne(f, g)
    ensures ProgressOk(g)
  {
    if g.steps != f.steps {
      var step := g.steps[|f.steps|];
      assert g.steps == f.steps + [step];
      assert g.IsHaproxy() == f.IsHaproxy();
      assert ProgressIndex(g.IsHaproxy(), step) <= Level(g);
      WroteRises(f.IsHaproxy(), f.steps, step);
    }
  }

  // ---------------------------------------------------------------- the page invariant

  predicate FlowOk(f: Flow) {
    OnScript(f) && ProgressOk(f) && (f.kind.CreateFlow? ==> Submittable(f.cap))
  }

  /** The context is what its owner obtained: a finished HAProxy create flow that saw its dry-run succeed and
      its final approval ready and not blocked. */
  predicate ContextOk(flows: seq<Flow>, x: Context) {
    && x.owner < |flows|
    && var g := flows[x.owner];
    && g.kind.CreateFlow? && g.cap.forwarding == HaproxyTcp && g.pc.Done? && |g.trail| == 7
    && g.trail[3] == SawDryRun(x.dryRun) && g.trail[6] == SawApproval(x.approval)
    && x.approval.ready && !x.approval.blocked
    && x.resourceId == ResourceId(g.cap) && x.nodeId == NodeId(g.cap)
    && g.steps != [] && g.steps[|g.steps| - 1] == RealCreateConfirm
  }

  /** No confirm flow was started from this context. */
  predicate Unused(flows: seq<Flow>, owner: nat) {
    forall i :: 0 <= i < |flows| && flows[i].kind.ConfirmFlow? ==> flows[i].kind.context.owner != owner
  }

  predicate AllOk(flows: seq<Flow>) {
    forall i :: 0 <= i < |flows| ==> FlowOk(flows[i])
  }

  /** Every confirm flow was started from a right context of an earlier flow, and no two from the same. */
  predicate Confirmed(flows: seq<Flow>) {
    && (forall i :: 0 <= i < |flows| && flows[i].kind.ConfirmFlow? ==>
          ContextOk(flows, flows[i].kind.context) && flows[i].kind.context.owner < i)
    && (forall i, j :: 0 <= i < j < |flows| && flows[i].kind.ConfirmFlow? && flows[j].kind.ConfirmFlow? ==>
          flows[i].kind.context.owner != flows[j].kind.context.owner)
  }

  /** The stored context is right, and while the confirm step shows it has not been used yet. */
  predicate ContextInv(flows: seq<Flow>, context: Option<Context>, step: Step) {
    context.Some? ==>
      ContextOk(flows, context.value) && (step == RealCreateConfirm ==> Unused(flows, context.value.owner))
  }

  predicate Inv(s: State) {
    AllOk(s.flows) && Confirmed(s.flows) && ContextInv(s.flows, s.context, s.step)
  }

  /** Flows are added, or flows that are not finished move on. */
  predicate Extends(before: seq<Flow>, after: seq<Flow>) {
    && |before| <= |after|
    && forall i :: 0 <= i < |before| ==>
         after[i].kind == before[i].kind && (before[i].pc.Done? ==> after[i] == before[i])
  }

  lemma ContextsStay(before: seq<Flow>, after: seq<Flow>)
    requires Extends(before, after)
    ensures forall x :: ContextOk(before, x) ==> ContextOk(after, x)
  {
  }

  lemma FirstFlowOk(f: Flow)
    requires f.pc.AwaitCsrf? && f.trail == []
    requires if f.kind.ConfirmFlow? then f.steps == [CommandCreate]
             else f.steps == [PreflightCreate] && Submittable(f.cap)
    ensures FlowOk(f)
  {
  }

  lemma AdvanceKeepsFlow(f: Flow, answer: Answer, pending: set<string>)
    requires FlowOk(f)
    ensures var g := Advance(f, answer, pending);
            FlowOk(g) && WritesOne(f, g)
  {
    AdvanceKeepsScript(f, answer, pending);
    AdvanceRises(f, answer, pending);
    AdvanceWritesOne(f, answer, pending);
  }

  lemma ReadStep(f: Flow, p: Purpose, id: string, attempt: nat, answer: Answer)
    ensures var g := AfterRead(f, p, id, attempt, answer);
            |g.steps| > |f.steps| ==> g.steps[|g.steps| - 1] != RealCreateConfirm
  {
  }

  /** Moving flows on keeps what is known of the confirm flows and of unused contexts. */
  lemma MovingOnKeeps(before: seq<Flow>, after: seq<Flow>)
    requires Confirmed(before) && Extends(before, after) && |before| == |after|
    ensures Confirmed(after)
    ensures forall owner: nat :: Unused(before, owner) ==> Unused(after, owner)
  {
    ContextsStay(before, after);
  }

  lemma FreshContext(flows: seq<Flow>, i: nat, a: Approval)
    requires Confirmed(flows) && i < |flows| && FlowOk(flows[i]) && flows[i].pc.AwaitApproval? && a.ready && !a.blocked
    ensures var f, after := flows[i], flows[i := AfterApproval(flows[i], a)];
            ContextOk(after, Context(i, ResourceId(f.cap), NodeId(f.cap), f.pc.dryRun, a)) && Unused(after, i)
  {
    forall j | 0 <= j < |flows| && flows[j].kind.ConfirmFlow? ensures flows[j].kind.context.owner != i {
      assert ContextOk(flows, flows[j].kind.context);
    }
  }

  predicate Passes(f: Flow, answer: Answer) {
    f.pc.AwaitApproval? && answer.ApprovalIs? && answer.approval.ready && !answer.approval.blocked
  }

  /** Only a passed final approval makes a flow write the confirm step; and a link is asked for only right
      after the route was found. */
  predicate ShowsWell(f: Flow, g: Flow, answer: Answer) {
    && (Passes(f, answer) ==> g == AfterApproval(f, answer.approval))
    && (!Passes(f, answer) && |g.steps| > |f.steps| ==> g.steps[|g.steps| - 1] != RealCreateConfirm)
    && (f.pc.AwaitLists? && g.pc.AwaitLink? ==> |g.trail| >= 2 && g.trail[|g.trail| - 2].FoundRoute?)
  }

  lemma AdvanceShowsWell(f: Flow, answer: Answer, pending: set<string>)
    ensures ShowsWell(f, Advance(f, answer, pending), answer)
  {
    AdvanceToLink(f, answer, pending);
    if f.pc.AwaitRead? {
      ReadStep(f, f.pc.purpose, f.pc.id, f.pc.attempt, answer);
    }
  }

  predicate MovesOn(flows: seq<Flow>, i: nat, g: Flow)
    requires i < |flows|
  {
    AllOk(flows[i := g]) && Extends(flows, flows[i := g])
  }

  lemma ResumeKeepsFlows(s: State, i: nat, answer: Answer)
    requires AllOk(s.flows) && i < |s.flows|
    ensures MovesOn(s.flows, i, Advance(s.flows[i], answer, s.pending))
  {
    AdvanceKeepsFlow(s.flows[i], answer, s.pending);
  }

  /** The page invariant after flows moved on, when the context is new and unused or was there before. */
  lemma MovedOnPage(s: State, t: State)
    requires Confirmed(s.flows) && ContextInv(s.flows, s.context, s.step)
    requires AllOk(t.flows) && Extends(s.flows, t.flows) && |s.flows| == |t.flows|
    requires || (t.context == s.context && (t.step == RealCreateConfirm ==> s.step == RealCreateConfirm))
             || ContextInv(t.flows, t.context, t.step)
    ensures Inv(t)
  {
    MovingOnKeeps(s.flows, t.flows);
    ContextsStay(s.flows, t.flows);
  }

  lemma ShownKeeps(s: State, i: nat, g: Flow, answer: Answer)
    requires Inv(s) && i < |s.flows| && MovesOn(s.flows, i, g) && ShowsWell(s.flows[i], g, answer)
    ensures Inv(Shown(s, i, s.flows[i], g, answer))
  {
    if Passes(s.flows[i], answer) {
      FreshContext(s.flows, i, answer.approval);
    }
    MovedOnPage(s, Shown(s, i, s.flows[i], g, answer));
  }

  lemma ListsKeep(s: State, lists: Lists)
    requires Inv(s)
    ensures Inv(WithLists(s, lists)) && WithLists(s, lists).flows == s.flows
  {
  }

  lemma ResumeKeeps(s: State, i: nat, answer: Answer)
    requires Inv(s) && i < |s.flows|
    ensures Inv(Resumed(s, i, answer))
  {
    ResumeKeepsFlows(s, i, answer);
    var f := s.flows[i];
    AdvanceShowsWell(f, answer, s.pending);
    if f.pc.AwaitLists? && answer.ListsAre? {
      ListsKeep(s, answer.lists);
      ShownKeeps(WithLists(s, answer.lists), i, Advance(f, answer, s.pending), answer);
    } else {
      ShownKeeps(s, i, Advance(f, answer, s.pending), answer);
    }
  }

  lemma AddKeeps(flows: seq<Flow>, f: Flow)
    requires Confirmed(flows)
    requires f.kind.ConfirmFlow? ==> ContextOk(flows, f.kind.context) && Unused(flows, f.kind.context.owner)
    ensures Confirmed(flows + [f])
  {
    ContextsStay(flows, flows + [f]);
  }

  lemma StartKeeps(s: State, f: Flow)
    requires Inv(s) && FlowOk(f)
    requires f.kind.ConfirmFlow? ==> ContextOk(s.flows, f.kind.context) && Unused(s.flows, f.kind.context.owner)
    ensures AllOk(s.flows + [f]) && Confirmed(s.flows + [f])
    ensures forall x :: ContextOk(s.flows, x) ==> ContextOk(s.flows + [f], x)
  {
    AddKeeps(s.flows, f);
    ContextsStay(s.flows, s.flows + [f]);
  }

  /** Every event keeps the invariant. */
  lemma ApplyKeeps(s: State, e: Event)
    requires Inv(s)
    ensures Inv(Apply(s, e))
  {
    match e
    case Submit =>
      if SubmitEnabled(s) {
        var f := Flow(CreateFlow, Rendered(s), AwaitCsrf, [], [PreflightCreate]);
        FirstFlowOk(f);
        StartKeeps(s, f);
      }
    case Confirm =>
      if ConfirmEnabled(s) {
        var f := Flow(ConfirmFlow(s.context.value), Rendered(s), AwaitCsrf, [], [CommandCreate]);
        FirstFlowOk(f);
        StartKeeps(s, f);
      }
    case Resume(i, answer) => if i < |s.flows| { ResumeKeeps(s, i, answer); }
    case _ =>
  }

  /** Every run keeps the invariant. */
  lemma {:induction false} RunKeeps(events: seq<Event>)
    ensures Inv(Run(events))
  {
    if events != [] {
      RunKeeps(events[..|events| - 1]);
      ApplyKeeps(Run(events[..|events| - 1]), events[|events| - 1]);
    }
  }
}
