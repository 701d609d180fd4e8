/** The landing-node submit handler as the straight-line code it is, run to its end with the replies it gets. It
    leaves what the machine leaves when it is fed the same replies step by step. */
module LandingHandlers {
  import opened Text
  import opened LandingCreate
  import opened LandingCreatePage
  import opened LandingCreateTheorems

  /** What one read of the Worker's command list gives. */
  datatype Read = CommandList(commands: seq<Command>) | ReadError

  /** What the server answers each call with; `None` is an error answer or an exception. */
  datatype Replies = Replies(csrf: bool, preflight: Option<(string, string)>, preflightReads: nat -> Read,
                             plan: Option<bool>, create: Option<(string, string)>, createReads: nat -> Read,
                             servers: Option<seq<Listed>>)

  function ReadAt(r: Replies, creating: bool, attempt: nat): Read {
    if creating then r.createReads(attempt) else r.preflightReads(attempt)
  }

  function CommandAnswer(command: Option<(string, string)>): Answer {
    if command.Some? then CommandIs(command.value.0, command.value.1) else Refused
  }

  /** The answer the await at `pc` resumes with. */
  function AnswerAt(pc: Pc, r: Replies): Answer {
    match pc
    case AwaitCsrf => if r.csrf then Token else Threw
    case AwaitPreflight => CommandAnswer(r.preflight)
    case AwaitPlan => if r.plan.Some? then PlanIs(r.plan.value) else Refused
    case AwaitCreate => CommandAnswer(r.create)
    case AwaitRead(creating, _, attempt) =>
      var read := ReadAt(r, creating, attempt);
      if read.CommandList? then CommandsAre(read.commands) else Refused
    case AwaitServers => if r.servers.Some? then ServersAre(r.servers.value) else Threw
    case Done => Threw
  }

  /** A bound on the awaits still to come. */
  function Rank(pc: Pc): nat {
    match pc
    case AwaitCsrf => 1000
    case AwaitPreflight => 900
    case AwaitPlan => 500
    case AwaitCreate => 400
    case AwaitRead(creating, _, attempt) =>
      (if creating then 201 else 601) + (if attempt <= MAX_READS then MAX_READS + 1 - attempt else 0)
    case AwaitServers => 100
    case Done => 0
  }

  lemma AdvanceRanks(f: Flow, r: Replies)
    requires !f.pc.Done?
    ensures Rank(Advance(f, AnswerAt(f.pc, r)).pc) < Rank(f.pc)
  {
  }

  /** The flow once the replies have been fed to it, await by await, until it is done. */
  function Played(f: Flow, r: Replies): Flow
    decreases Rank(f.pc)
  {
    if f.pc.Done? then f
    else
      AdvanceRanks(f, r);
      Played(Advance(f, AnswerAt(f.pc, r)), r)
  }

  lemma {:induction false} PlayedKeepsFlow(f: Flow, r: Replies)
    requires FlowOk(f)
    ensures FlowOk(Played(f, r))
    decreases Rank(f.pc)
  {
    if !f.pc.Done? {
      AdvanceRanks(f, r);
      AdvanceKeeps(f, AnswerAt(f.pc, r));
      PlayedKeepsFlow(Advance(f, AnswerAt(f.pc, r)), r);
    }
  }

  /** What a submit that passed its checks sends, fed with any replies, names what it captured. */
  lemma PlayedCarriesCapture(cap: Capture, r: Replies)
    requires CaptureOk(cap)
    ensures CarriesCapture(Played(Flow(cap, AwaitCsrf, [], []), r))
  {
    PlayedKeepsFlow(Flow(cap, AwaitCsrf, [], []), r);
    ScriptCarriesCapture(Played(Flow(cap, AwaitCsrf, [], []), r));
  }

  // ---------------------------------------------------------------- one await of the machine at a time

  lemma PlayedCsrf(f: Flow, r: Replies)
    requires f.pc.AwaitCsrf?
    ensures Played(f, r)
            == Played(if r.csrf then
                        f.Wrote(PreflightCreate).Noted(Sent(Preflight(f.cap.workerId, f.cap.serverId)))
                         .At(AwaitPreflight)
                      else f.Failing(), r)
  {
  }

  lemma PlayedCommand(f: Flow, r: Replies)
    requires f.pc.AwaitPreflight? || f.pc.AwaitCreate?
    ensures var command := if f.pc.AwaitCreate? then r.create else r.preflight;
            Played(f, r)
            == Played(if command.Some? then f.Noted(SawCommand(command.value.0, command.value.1))
                                             .At(AwaitRead(f.pc.AwaitCreate?, command.value.1, 0))
                      else f.Failing(), r)
  {
  }

  lemma PlayedPlan(f: Flow, r: Replies)
    requires f.pc.AwaitPlan?
    ensures Played(f, r) == Played(if r.plan.Some? then AfterPlan(f, r.plan.value) else f.Failing(), r)
  {
  }

  function RunningStep(creating: bool): Step {
    if creating then CommandRunning else PreflightRunning
  }

  /** After this read the wait sleeps and reads again. */
  predicate GoesOn(r: Replies, creating: bool, id: string, k: nat) {
    var read := ReadAt(r, creating, k);
    read.CommandList? && !EndsWait(read.commands, id)
  }

  lemma PlayedRead(cap: Capture, creating: bool, id: string, attempt: nat, trail: seq<Act>,
                   steps: seq<Step>, r: Replies)
    requires attempt < MAX_READS
    ensures var read := ReadAt(r, creating, attempt);
            var done := Flow(cap, Done, trail, steps);
            Played(Flow(cap, AwaitRead(creating, id, attempt), trail, steps), r)
            == Played(if read.ReadError? then done.Failing()
                      else if GoesOn(r, creating, id, attempt)
                      then Flow(cap, AwaitRead(creating, id, attempt + 1), trail, steps + [RunningStep(creating)])
                      else AfterTerminal(done, creating, id, ListedCommand(read.commands, id).value.status), r)
  {
  }

  lemma PlayedLastRead(cap: Capture, creating: bool, id: string, trail: seq<Act>, steps: seq<Step>, r: Replies)
    ensures Played(Flow(cap, AwaitRead(creating, id, MAX_READS), trail, steps), r)
            == Played(Flow(cap, Done, trail, steps).Failing(), r)
  {
  }

  function Times(step: Step, n: nat): seq<Step> {
    seq(n, _ => step)
  }

  predicate AllGoOn(r: Replies, creating: bool, id: string, n: nat) {
    forall k :: 0 <= k < n ==> GoesOn(r, creating, id, k)
  }

  /** Reads that go on write the running step, one each. */
  lemma {:induction false} PlayedReads(cap: Capture, creating: bool, id: string, n: nat, trail: seq<Act>,
                                       steps: seq<Step>,
                                       r: Replies)
    requires n <= MAX_READS && AllGoOn(r, creating, id, n)
    ensures Played(Flow(cap, AwaitRead(creating, id, 0), trail, steps), r)
            == Played(Flow(cap, AwaitRead(creating, id, n), trail, steps + Times(RunningStep(creating), n)), r)
  {
    if n == 0 {
      assert steps + Times(RunningStep(creating), 0) == steps;
    } else {
      PlayedReads(cap, creating, id, n - 1, trail, steps, r);
      var written := steps + Times(RunningStep(creating), n - 1);
      assert GoesOn(r, creating, id, n - 1);
      PlayedRead(cap, creating, id, n - 1, trail, written, r);
      assert written + [RunningStep(creating)] == steps + Times(RunningStep(creating), n);
    }
  }

  lemma PlayedServers(f: Flow, r: Replies)
    requires f.pc.AwaitServers?
    ensures Played(f, r) == Played(if r.servers.Some? then AfterServers(f, r.servers.value) else f.Failing(), r)
  {
  }

  // ---------------------------------------------------------------- the handler

  /** `waitForWorkerCommandCompletion`: at most ninety reads, and the first terminal status listed returned;
      `turns` reads did not end the wait, and each of them wrote the running step. */
  method WaitForWorkerCommandCompletion(creating: bool, id: string, written: seq<Step>, r: Replies)
    returns (status: Option<string>, steps: seq<Step>, turns: nat)
    ensures turns <= 90 && AllGoOn(r, creating, id, turns)
    ensures steps == written + Times(RunningStep(creating), turns)
    ensures status.Some? ==>
      && turns < 90 && !GoesOn(r, creating, id, turns) && ReadAt(r, creating, turns).CommandList?
      && ListedCommand(ReadAt(r, creating, turns).commands, id) == Some(Command(id, status.value))
      && status.value in {"succeeded", "failed", "expired", "cancelled"}
    ensures status.None? ==> turns == 90 || ReadAt(r, creating, turns).ReadError?
  {
    steps, turns := written, 0;
    assert written + Times(RunningStep(creating), 0) == written;
    for attempt := 0 to MAX_READS
      invariant turns == attempt && AllGoOn(r, creating, id, attempt)
      invariant steps == written + Times(RunningStep(creating), attempt)
    {
      var result := ReadAt(r, creating, attempt);
      if result.ReadError? {
        return None, steps, turns;
      }
      var command := ListedCommand(result.commands, id);
      if command.Some? && command.value.status in TERMINAL {
        return Some(command.value.status), steps, turns;
      }
      steps := steps + [RunningStep(creating)];
      turns := turns + 1;
      assert steps == written + Times(RunningStep(creating), turns);
    }
    return None, steps, turns;
  }

  /** The wait of the handler. */
  method Wait(cap: Capture, creating: bool, id: string, trail: seq<Act>, written: seq<Step>, r: Replies)
    returns (status: Option<string>, steps: seq<Step>)
    ensures Played(Flow(cap, AwaitRead(creating, id, 0), trail, written), r)
            == Played(if status.Some? then AfterTerminal(Flow(cap, Done, trail, steps), creating, id, status.value)
                      else Flow(cap, Done, trail, steps).Failing(), r)
  {
    var turns;
    status, steps, turns := WaitForWorkerCommandCompletion(creating, id, written, r);
    PlayedReads(cap, creating, id, turns, trail, written, r);
    if turns < MAX_READS {
      PlayedRead(cap, creating, id, turns, trail, steps, r);
    } else {
      PlayedLastRead(cap, creating, id, trail, steps, r);
    }
  }

  /** `submitSimplifiedLandingNodeCreate` past its checks, with the values its closure captured. */
  method SubmitSimplifiedLandingNodeCreate(cap: Capture, r: Replies) returns (trail: seq<Act>, steps: seq<Step>)
    ensures Played(Flow(cap, AwaitCsrf, [], []), r) == Flow(cap, Done, trail, steps)
    ensures CaptureOk(cap) ==> CarriesCapture(Flow(cap, Done, trail, steps))
  {
    if CaptureOk(cap) {
      PlayedCarriesCapture(cap, r);
    }
    trail, steps := [], [];
    PlayedCsrf(Flow(cap, AwaitCsrf, trail, steps), r);
    if !r.csrf {
      steps := steps + [Failed];
      return;
    }
    steps := steps + [PreflightCreate];
    trail := trail + [Sent(Preflight(cap.workerId, cap.serverId))];
    PlayedCommand(Flow(cap, AwaitPreflight, trail, steps), r);
    if r.preflight.None? {
      steps := steps + [Failed];
      return;
    }
    var (worker, id) := r.preflight.value;
    trail := trail + [SawCommand(worker, id)];
    var status;
    status, steps := Wait(cap, false, id, trail, steps, r);
    if status.None? {
      steps := steps + [Failed];
      return;
    }
    trail := trail + [SawTerminal(id, status.value)];
    if status.value != "succeeded" {
      steps := steps + [Failed];
      return;
    }
    trail, steps := PlanAndCreate(cap, trail, steps, r);
  }

  method PlanAndCreate(cap: Capture, t: seq<Act>, written: seq<Step>, r: Replies)
    returns (trail: seq<Act>, steps: seq<Step>)
    ensures Played(Flow(cap, AwaitPlan, t + [Sent(PlanOf(cap))], written + [Plan]), r) == Flow(cap, Done, trail, steps)
  {
    steps := written + [Plan];
    trail := t + [Sent(PlanOf(cap))];
    PlayedPlan(Flow(cap, AwaitPlan, trail, steps), r);
    if r.plan.None? {
      steps := steps + [Failed];
      return;
    }
    trail := trail + [SawPlan(r.plan.value)];
    if !r.plan.value {
      steps := steps + [Failed];
      return;
    }
    steps := steps + [CommandCreate];
    trail := trail + [Sent(CreateOf(cap))];
    PlayedCommand(Flow(cap, AwaitCreate, trail, steps), r);
    if r.create.None? {
      steps := steps + [Failed];
      return;
    }
    var (worker, id) := r.create.value;
    trail := trail + [SawCommand(worker, id)];
    trail, steps := FinishCreate(cap, id, trail, steps, r);
  }

  method FinishCreate(cap: Capture, id: string, t: seq<Act>, written: seq<Step>, r: Replies)
    returns (trail: seq<Act>, steps: seq<Step>)
    ensures Played(Flow(cap, AwaitRead(true, id, 0), t, written), r) == Flow(cap, Done, trail, steps)
  {
    trail := t;
    var status;
    status, steps := Wait(cap, true, id, trail, written, r);
    if status.None? {
      steps := steps + [Failed];
      return;
    }
    trail := trail + [SawTerminal(id, status.value)];
    if status.value != "succeeded" {
      steps := steps + [Failed];
      return;
    }
    steps := steps + [Refresh];
    PlayedServers(Flow(cap, AwaitServers, trail, steps), r);
    if r.servers.None? {
      steps := steps + [Failed];
      return;
    }
    trail := trail + [SawNode(FindCreatedNode(r.servers.value, cap.serverId, cap.port))];
    steps := steps + [Complete];
  }
}
