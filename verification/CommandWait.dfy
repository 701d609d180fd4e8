/** The bounded wait for a Worker command of the transit page. Reads and clock are the environment's: read
    `k` answers `read(k)`, and `clock(k)` is the time right after it. */
module CommandWait {
  import opened Text
  import opened TransitCreate

  /** A missing field of an error answer is the empty text; a `detail` that is no text is left out by the
      code. */
  datatype Read = Found(status: string) | Error(code: string, message: string, detail: string)

  datatype Outcome = Returned(status: string) | Unavailable | Rejected(error: Read) | TimedOut

  const RETRY_WINDOW_MS: int := 30000
  const NOT_FOUND_CODES: set<string> := {"WORKER_COMMAND_NOT_FOUND", "COMMAND_NOT_FOUND", "NOT_FOUND"}

  /** `isWorkerCommandNotFound`. */
  predicate IsNotFound(r: Read) {
    && r.Error?
    && (|| UpperText(r.code) in NOT_FOUND_CODES
        || ContainsFolded(r.message + " " + r.detail, "not found")
        || ContainsFolded(r.message + " " + r.detail, "\U{4E0D}\U{5B58}\U{5728}"))
  }

  /** What the wait sees: its reads, the clock after each, and the time it started. */
  datatype World = World(read: nat -> Read, clock: nat -> int, started: int)

  predicate InWindow(w: World, k: nat) {
    w.clock(k) - w.started < RETRY_WINDOW_MS
  }

  /** After read `k` the wait sleeps and reads again. */
  predicate Absorbed(w: World, k: nat) {
    match w.read(k)
    case Found(status) => status !in TERMINAL
    case Error(_, _, _) => IsNotFound(w.read(k)) && InWindow(w, k)
  }

  function Verdict(w: World, k: nat): Outcome {
    match w.read(k)
    case Found(status) => Returned(status)
    case Error(_, _, _) => if IsNotFound(w.read(k)) then Unavailable else Rejected(w.read(k))
  }

  /** The first read from `k` on that is not absorbed, or all reads spent. */
  function Stop(w: World, k: nat): (n: nat)
    requires k <= MAX_READS
    ensures k <= n <= MAX_READS
    ensures forall i :: k <= i < n ==> Absorbed(w, i)
    ensures n < MAX_READS ==> !Absorbed(w, n)
    decreases MAX_READS - k
  {
    if k == MAX_READS || !Absorbed(w, k) then k else Stop(w, k + 1)
  }

  function Result(w: World): Outcome {
    var n := Stop(w, 0);
    if n == MAX_READS then TimedOut else Verdict(w, n)
  }

  // ---------------------------------------------------------------- what a read means

  /** The text is this upper-case word in any case. */
  predicate IsWord(text: string, word: string) {
    |text| == |word| && forall i :: 0 <= i < |word| ==> Upper(text[i]) == word[i]
  }

  /** The message ends with the first part of the phrase and the detail starts with the rest. */
  predicate SplitAcross(message: string, detail: string, p: string, k: nat)
    requires k < |p|
  {
    && k <= |message| && message[|message| - k..] == p[..k]
    && |p| - k - 1 <= |detail| && detail[..|p| - k - 1] == p[k + 1..]
  }

  /** A phrase in two texts joined by a space is in one of them, or split across that space. */
  lemma JoinedContains(message: string, detail: string, p: string)
    requires p != []
    ensures Contains(message + " " + detail, p)
            <==> || Contains(message, p) || Contains(detail, p)
                 || exists k :: 0 <= k < |p| && p[k] == ' ' && SplitAcross(message, detail, p, k)
  {
    var joined := message + " " + detail;
    if Contains(joined, p) {
      var i :| 0 <= i <= |joined| && At(joined, p, i);
      OccurrenceInJoined(message, detail, p, i);
    }
    if Contains(message, p) {
      var i :| 0 <= i <= |message| && At(message, p, i);
      assert joined[i..i + |p|] == message[i..i + |p|];
      assert At(joined, p, i);
    }
    if Contains(detail, p) {
      var i :| 0 <= i <= |detail| && At(detail, p, i);
      assert joined[|message| + 1 + i..|message| + 1 + i + |p|] == detail[i..i + |p|];
      assert At(joined, p, |message| + 1 + i);
    }
    if k :| 0 <= k < |p| && p[k] == ' ' && SplitAcross(message, detail, p, k) {
      SplitIsJoined(message, detail, p, k);
    }
  }

  lemma OccurrenceInJoined(message: string, detail: string, p: string, i: nat)
    requires p != [] && At(message + " " + detail, p, i)
    ensures || Contains(message, p) || Contains(detail, p)
            || exists k :: 0 <= k < |p| && p[k] == ' ' && SplitAcross(message, detail, p, k)
  {
    var joined, n := message + " " + detail, |message|;
    if i + |p| <= n {
      assert message[i..i + |p|] == joined[i..i + |p|];
      assert At(message, p, i);
    } else if n < i {
      assert detail[i - n - 1..i - n - 1 + |p|] == joined[i..i + |p|];
      assert At(detail, p, i - n - 1);
    } else {
      var k := n - i;
      assert joined[i..i + |p|][k] == ' ';
      assert message[n - k..] == joined[i..i + |p|][..k];
      assert detail[..|p| - k - 1] == joined[i..i + |p|][k + 1..];
      assert p[k] == ' ' && SplitAcross(message, detail, p, k);
    }
  }

  lemma SplitIsJoined(message: string, detail: string, p: string, k: nat)
    requires k < |p| && p[k] == ' ' && SplitAcross(message, detail, p, k)
    ensures Contains(message + " " + detail, p)
  {
    var joined, i := message + " " + detail, |message| - k;
    assert p == p[..k] + [' '] + p[k + 1..];
    assert joined[i..i + |p|] == message[i..] + [' '] + detail[..|p| - k - 1];
    assert At(joined, p, i);
  }

  /** A read says that the command is not found: its code is one of three words in any case, or its message or
      detail says so, or "not" ends the message and "found" starts the detail. */
  predicate SaysNotFound(code: string, message: string, detail: string) {
    || IsWord(code, "WORKER_COMMAND_NOT_FOUND") || IsWord(code, "COMMAND_NOT_FOUND") || IsWord(code, "NOT_FOUND")
    || ContainsFolded(message, "not found") || ContainsFolded(detail, "not found")
    || ContainsFolded(message, "\U{4E0D}\U{5B58}\U{5728}") || ContainsFolded(detail, "\U{4E0D}\U{5B58}\U{5728}")
    || SplitAcross(LowerText(message), LowerText(detail), "not found", 3)
  }

  lemma WordIsUpper(text: string, word: string)
    ensures UpperText(text) == word <==> IsWord(text, word)
  {
  }

  lemma JoinedFolded(message: string, detail: string)
    ensures LowerText(message + " " + detail) == LowerText(message) + " " + LowerText(detail)
  {
  }

  lemma NotFoundSpace(message: string, detail: string)
    ensures ContainsFolded(message + " " + detail, "not found")
            <==> || ContainsFolded(message, "not found") || ContainsFolded(detail, "not found")
                 || SplitAcross(LowerText(message), LowerText(detail), "not found", 3)
  {
    var p := "not found";
    JoinedFolded(message, detail);
    JoinedContains(LowerText(message), LowerText(detail), p);
    assert p[3] == ' ' && forall k :: 0 <= k < |p| && k != 3 ==> p[k] != ' ';
  }

  lemma MissingSpace(message: string, detail: string, p: string)
    requires p != [] && ' ' !in p
    ensures ContainsFolded(message + " " + detail, p) <==> ContainsFolded(message, p) || ContainsFolded(detail, p)
  {
    JoinedFolded(message, detail);
    JoinedContains(LowerText(message), LowerText(detail), p);
    assert forall k :: 0 <= k < |p| ==> p[k] in p;
  }

  /** What counts as not found. */
  lemma NotFoundIff(code: string, message: string, detail: string)
    ensures IsNotFound(Error(code, message, detail)) <==> SaysNotFound(code, message, detail)
  {
    WordIsUpper(code, "WORKER_COMMAND_NOT_FOUND");
    WordIsUpper(code, "COMMAND_NOT_FOUND");
    WordIsUpper(code, "NOT_FOUND");
    NotFoundSpace(message, detail);
    MissingSpace(message, detail, "\U{4E0D}\U{5B58}\U{5728}");
  }

  /** After read `k` the wait goes on: the command is not terminal, or it is not found within thirty seconds. */
  predicate GoesOn(w: World, k: nat) {
    match w.read(k)
    case Found(status) => status !in {"succeeded", "failed", "cancelled", "expired"}
    case Error(code, message, detail) => SaysNotFound(code, message, detail) && w.clock(k) - w.started < 30000
  }

  /** Read `k` ends the wait in this outcome: the terminal status read, the unavailable notice for a command that
      is still not found, or the error read. */
  predicate EndsIn(w: World, k: nat, outcome: Outcome) {
    && !GoesOn(w, k)
    && match w.read(k)
       case Found(status) => outcome == Returned(status)
       case Error(code, message, detail) =>
         outcome == if SaysNotFound(code, message, detail) then Unavailable else Rejected(w.read(k))
  }

  lemma ReadMeaning(w: World, k: nat)
    ensures Absorbed(w, k) <==> GoesOn(w, k)
    ensures !Absorbed(w, k) ==> EndsIn(w, k, Verdict(w, k))
  {
    if w.read(k).Error? {
      NotFoundIff(w.read(k).code, w.read(k).message, w.read(k).detail);
    }
  }

  lemma StopMeaning(w: World)
    ensures forall k :: 0 <= k < Stop(w, 0) ==> GoesOn(w, k)
    ensures Stop(w, 0) < 90 ==> EndsIn(w, Stop(w, 0), Result(w))
  {
    forall k | 0 <= k < Stop(w, 0) ensures GoesOn(w, k) {
      ReadMeaning(w, k);
    }
    if Stop(w, 0) < MAX_READS {
      ReadMeaning(w, Stop(w, 0));
    }
  }

  // ---------------------------------------------------------------- the loop

  method ReadUntilStop(w: World) returns (outcome: Outcome, readCount: nat, running: nat)
    ensures running == Stop(w, 0) && outcome == Result(w)
    ensures readCount == if running == MAX_READS then MAX_READS else running + 1
  {
    readCount, running := 0, 0;
    for attempt := 0 to MAX_READS
      invariant readCount == running == attempt
      invariant Stop(w, 0) == Stop(w, attempt)
    {
      var result := w.read(attempt);
      readCount := readCount + 1;
      if result.Error? {
        if IsNotFound(result) && w.clock(attempt) - w.started < RETRY_WINDOW_MS {
          running := running + 1;
          continue;
        }
        if IsNotFound(result) {
          return Unavailable, readCount, running;
        }
        return Rejected(result), readCount, running;
      }
      if result.status in TERMINAL {
        return Returned(result.status), readCount, running;
      }
      running := running + 1;
    }
    return TimedOut, readCount, running;
  }

  /** `waitForTransitCommandCompletion`: it makes `readCount` reads, sleeps and writes the running step
      `running` times, and ends in `outcome`. */
  method WaitForTransitCommandCompletion(w: World) returns (outcome: Outcome, readCount: nat, running: nat)
    ensures readCount <= 90
    ensures forall k :: 0 <= k < running ==> GoesOn(w, k)
    ensures outcome == TimedOut ==> readCount == running == 90
    ensures outcome != TimedOut ==> readCount == running + 1 && EndsIn(w, running, outcome)
    ensures running == Stop(w, 0) && outcome == Result(w)
  {
    outcome, readCount, running := ReadUntilStop(w);
    StopMeaning(w);
  }

  /** The first `n` reads of which some are absorbed not-found answers. */
  function NotFounds(w: World, n: nat): set<nat> {
    set k: nat | k < n && IsNotFound(w.read(k)) && Absorbed(w, k)
  }

  /** Each sleep moves the clock on by at least its two seconds. */
  predicate SleepsTwoSeconds(w: World, n: nat) {
    && w.clock(0) >= w.started
    && forall k: nat :: k < n ==> w.clock(k + 1) >= w.clock(k) + 2000
  }

  lemma {:induction false} ClockAfter(w: World, n: nat, k: nat)
    requires SleepsTwoSeconds(w, n) && k <= n
    ensures w.clock(k) >= w.started + 2000 * k
  {
    if k > 0 {
      ClockAfter(w, n, k - 1);
      assert w.clock(k - 1 + 1) >= w.clock(k - 1) + 2000;
    }
  }

  function Below(n: nat): (r: set<nat>)
    ensures |r| == n && forall k: nat :: k in r <==> k < n
  {
    if n == 0 then {} else Below(n - 1) + {n - 1}
  }

  lemma {:induction false} SubsetIsSmaller(s: set<nat>, t: set<nat>)
    requires s <= t
    ensures |s| <= |t|
  {
    if s != {} {
      var x :| x in s;
      SubsetIsSmaller(s - {x}, t - {x});
    }
  }

  /** At most fifteen not-found answers are absorbed, all of them among the first fifteen reads. */
  lemma NotFoundsAreEarlyAndFew(w: World)
    requires SleepsTwoSeconds(w, Stop(w, 0))
    ensures forall k :: k in NotFounds(w, Stop(w, 0)) ==> k < 15
    ensures |NotFounds(w, Stop(w, 0))| <= 15
  {
    forall k | k in NotFounds(w, Stop(w, 0)) ensures k < 15 {
      ClockAfter(w, Stop(w, 0), k);
    }
    SubsetIsSmaller(NotFounds(w, Stop(w, 0)), Below(15));
  }

  /** A server that never finds the command, read every two seconds. */
  const NEVER_FOUND: World := World((k: nat) => Error("NOT_FOUND", "", ""), (k: nat) => 2000 * k, 0)

  lemma NeverFoundAnswers(k: nat)
    ensures IsNotFound(NEVER_FOUND.read(k)) && (Absorbed(NEVER_FOUND, k) <==> k < 15)
  {
    assert UpperText("NOT_FOUND") == "NOT_FOUND";
  }

  lemma NeverFoundStops()
    ensures Stop(NEVER_FOUND, 0) == 15 && Result(NEVER_FOUND) == Unavailable
  {
    var n := Stop(NEVER_FOUND, 0);
    NeverFoundAnswers(15);
    NeverFoundAnswers(n);
    assert n <= 15;
  }

  lemma NeverFoundAbsorbs(n: nat)
    requires n <= 15
    ensures NotFounds(NEVER_FOUND, n) == Below(n)
  {
    forall k: nat ensures k in NotFounds(NEVER_FOUND, n) <==> k in Below(n) {
      NeverFoundAnswers(k);
    }
  }

  /** The bound is met: such a server is asked sixteen times. */
  lemma FifteenNotFoundsHappen()
    ensures SleepsTwoSeconds(NEVER_FOUND, 15)
    ensures Stop(NEVER_FOUND, 0) == 15 && Result(NEVER_FOUND) == Unavailable
    ensures |NotFounds(NEVER_FOUND, 15)| == 15
  {
    NeverFoundStops();
    NeverFoundAbsorbs(15);
  }

  // ---------------------------------------------------------------- the wait inside a flow

  /** The answer a flow of the create machine resumes with after read `k`. */
  function AnswerOf(w: World, k: nat): Answer {
    match w.read(k)
    case Found(status) => StatusIs(status)
    case Error(_, _, _) => if IsNotFound(w.read(k)) then NotFound(InWindow(w, k)) else Refused
  }

  /** A flow fed with reads `k`, `k + 1`, ... as long as it waits for this command. */
  function Fed(f: Flow, p: Purpose, id: string, w: World, k: nat): Flow
    requires k <= MAX_READS
    decreases MAX_READS - k
  {
    var g := AfterRead(f, p, id, k, AnswerOf(w, k));
    if k < MAX_READS && g.pc == AwaitRead(p, id, k + 1) then Fed(g, p, id, w, k + 1) else g
  }

  /** A flow that wrote the running step once for each of the attempts from `k` to `n`. */
  function Running(f: Flow, p: Purpose, id: string, k: nat, n: nat): Flow
    requires k <= n
    decreases n - k
  {
    if k == n then f else Running(f.Wrote(RunningStep(p)).At(AwaitRead(p, id, k + 1)), p, id, k + 1, n)
  }

  function Ended(f: Flow, p: Purpose, id: string, outcome: Outcome): Flow {
    if outcome.Returned? then AfterTerminal(f, p, id, outcome.status) else f.Failing()
  }

  lemma OneRead(f: Flow, p: Purpose, id: string, w: World, k: nat)
    requires k < MAX_READS
    ensures AfterRead(f, p, id, k, AnswerOf(w, k))
            == if Absorbed(w, k) then f.Wrote(RunningStep(p)).At(AwaitRead(p, id, k + 1))
               else Ended(f, p, id, Verdict(w, k))
  {
  }

  lemma EndedMovesOn(f: Flow, p: Purpose, id: string, outcome: Outcome)
    ensures !Ended(f, p, id, outcome).pc.AwaitRead?
  {
  }

  /** The create machine, fed read by read, does what the loop does: it writes the running step once per
      absorbed read and goes on with the terminal status, or fails. */
  lemma {:induction false} FlowWaitsLikeTheLoop(f: Flow, p: Purpose, id: string, w: World, k: nat)
    requires k <= MAX_READS
    ensures var n := Stop(w, k);
            Fed(f, p, id, w, k)
              == Ended(Running(f, p, id, k, n), p, id, if n == MAX_READS then TimedOut else Verdict(w, n))
    decreases MAX_READS - k
  {
    if k < MAX_READS {
      OneRead(f, p, id, w, k);
      if Absorbed(w, k) {
        FlowWaitsLikeTheLoop(f.Wrote(RunningStep(p)).At(AwaitRead(p, id, k + 1)), p, id, w, k + 1);
      } else {
        EndedMovesOn(f, p, id, Verdict(w, k));
      }
    }
  }
}
