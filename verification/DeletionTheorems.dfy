/** When a deleted entry stays hidden and when it may come back, for every run of a panel. */
module DeletionTheorems {
  import opened Text
  import opened Listing
  import opened DeletionPanel

  // ---------------------------------------------------------------- what makes a delete release its target

  /** Answer `k` is a refusal or exception before the cleanup polls, which start when the reload after an
      accepted delete has finished, or a cleanup command that ended otherwise than succeeded. */
  predicate ReleasingAt(trail: seq<Answer>, k: nat)
    requires k < |trail|
  {
    || ((trail[k].Refused? || trail[k].Threw?) && Finished !in trail[..k])
    || (trail[k].Status? && trail[k].status in CLEANUP_TERMINAL && trail[k].status != "succeeded")
  }

  predicate Releasing(trail: seq<Answer>) {
    exists k :: 0 <= k < |trail| && ReleasingAt(trail, k)
  }

  lemma ReleasingSnoc(trail: seq<Answer>, a: Answer)
    ensures Releasing(trail + [a]) <==> Releasing(trail) || ReleasingAt(trail + [a], |trail|)
  {
    var t := trail + [a];
    forall k | 0 <= k < |trail| ensures ReleasingAt(t, k) <==> ReleasingAt(trail, k) {
      assert t[..k] == trail[..k];
    }
    if Releasing(trail) {
      var k :| 0 <= k < |trail| && ReleasingAt(trail, k);
      assert ReleasingAt(t, k);
    }
  }

  /** Where the reload after the answer finished: the cleanup polls follow it. */
  function FirstFinished(trail: seq<Answer>): (p: nat)
    ensures p <= |trail| && (p < |trail| ==> trail[p] == Finished)
    ensures forall k :: 0 <= k < p ==> trail[k] != Finished
  {
    if trail == [] then 0
    else
      var n := |trail| - 1;
      var p := FirstFinished(trail[..n]);
      if p < n || trail[n] == Finished then p else |trail|
  }

  /** A poll after which the wait goes on: the command is not terminal, or the read failed. */
  predicate PollGoesOn(a: Answer) {
    (a.Status? && a.status !in CLEANUP_TERMINAL) || a.Refused?
  }

  /** The delete was accepted with a cleanup command and its reload finished without an exception. */
  predicate MayPoll(trail: seq<Answer>) {
    var p := FirstFinished(trail);
    p < |trail| && Accepted(true) in trail[..p] && Threw !in trail[..p]
  }

  /** The polls are the answers right after that reload; each but the last goes on, and no status was seen
      anywhere else. */
  predicate PollsAre(trail: seq<Answer>, polls: nat) {
    && (polls > 0 ==> MayPoll(trail) && FirstFinished(trail) + polls < |trail|)
    && PollsAfter(trail, FirstFinished(trail), polls)
  }

  predicate PollsAfter(trail: seq<Answer>, p: nat, polls: nat) {
    && (forall k :: p < k < p + polls && k < |trail| ==> PollGoesOn(trail[k]))
    && (forall k :: 0 <= k < |trail| && trail[k].Status? ==> p < k <= p + polls)
  }

  /** The last poll ended the wait, or all polls are spent. */
  predicate PollsOver(trail: seq<Answer>, polls: nat) {
    var p := FirstFinished(trail);
    && 0 < polls && p + polls < |trail|
    && (polls == MAX_POLLS || !PollGoesOn(trail[p + polls]))
  }

  /** What the answers so far say about the polls of a delete, finished or not. */
  predicate PollsOk(f: Flow) {
    var t, p := f.trail, FirstFinished(f.trail);
    && PollsAre(t, f.polls)
    && match f.pc
       case AwaitCsrf | AwaitDelete => p == |t| && f.polls == 0 && Accepted(true) !in t && Threw !in t
       case AwaitAcceptedReload(hasCommand) =>
         p == |t| && f.polls == 0 && Threw !in t && (Accepted(true) in t <==> hasCommand)
       case AwaitRefusedReload => p == |t| && f.polls == 0 && Accepted(true) !in t
       case AwaitCaughtReload => p == |t| && f.polls == 0 && (Threw in t || Accepted(true) !in t)
       case AwaitPoll(n) =>
         && n == f.polls < MAX_POLLS && MayPoll(t) && p + 1 + f.polls == |t|
         && (f.polls > 0 ==> PollGoesOn(t[p + f.polls]))
       case AwaitLastReload => PollsOver(t, f.polls)
       case Done => if MayPoll(t) then PollsOver(t, f.polls) else f.polls == 0
  }

  /** What the answers so far say about a release. */
  predicate ReleaseOk(f: Flow) {
    && (f.released <==> Releasing(f.trail))
    && match f.pc
       case AwaitCsrf | AwaitDelete | AwaitAcceptedReload(_) => !f.released && Finished !in f.trail
       case AwaitRefusedReload | AwaitCaughtReload => f.released && Finished !in f.trail
       case AwaitPoll(_) => !f.released && Finished in f.trail
       case AwaitLastReload => Finished in f.trail
       case Done => true
  }

  /** A delete released its target exactly when an answer says so. It polls exactly when it was accepted with
      a command and its reload finished; then up to the first poll that ends the wait, thirty times at most. */
  predicate FlowOk(f: Flow) {
    f.polls <= MAX_POLLS && ReleaseOk(f) && PollsOk(f)
  }

  lemma StepKeepsRelease(f: Flow, a: Answer)
    requires ReleaseOk(f) && Step(f.pc, a).Some?
    ensures ReleaseOk(Moved(f, a, Step(f.pc, a).value))
  {
    ReleasingSnoc(f.trail, a);
    assert (f.trail + [a])[..|f.trail|] == f.trail;
  }

  lemma FirstFinishedSnoc(trail: seq<Answer>, a: Answer)
    ensures FirstFinished(trail + [a])
            == if FirstFinished(trail) < |trail| || a == Finished then FirstFinished(trail) else |trail| + 1
    ensures FirstFinished(trail) < |trail| ==> MayPoll(trail + [a]) == MayPoll(trail)
  {
    var t, p := trail + [a], FirstFinished(trail);
    assert t[..|trail|] == trail;
    if p < |trail| {
      assert t[..p] == trail[..p];
    }
  }

  lemma QuietKeepsPolls(trail: seq<Answer>, polls: nat, a: Answer)
    requires PollsAre(trail, polls) && !a.Status?
    ensures PollsAre(trail + [a], polls)
  {
    FirstFinishedSnoc(trail, a);
  }

  lemma OneMorePoll(trail: seq<Answer>, p: nat, polls: nat, a: Answer)
    requires PollsAfter(trail, p, polls) && p + 1 + polls == |trail|
    requires polls > 0 ==> PollGoesOn(trail[|trail| - 1])
    ensures PollsAfter(trail + [a], p, polls + 1)
  {
  }

  lemma PollExtends(trail: seq<Answer>, polls: nat, a: Answer)
    requires PollsAre(trail, polls) && MayPoll(trail) && FirstFinished(trail) + 1 + polls == |trail|
    requires polls > 0 ==> PollGoesOn(trail[|trail| - 1])
    ensures PollsAre(trail + [a], polls + 1) && MayPoll(trail + [a])
    ensures FirstFinished(trail + [a]) == FirstFinished(trail)
  {
    FirstFinishedSnoc(trail, a);
    OneMorePoll(trail, FirstFinished(trail), polls, a);
  }

  /** Up to the end of the reload after the answer. */
  lemma EarlyKeepsPolls(f: Flow, a: Answer)
    requires PollsOk(f) && Step(f.pc, a).Some? && !f.pc.AwaitPoll? && !f.pc.AwaitLastReload?
    ensures PollsOk(Moved(f, a, Step(f.pc, a).value))
  {
    if f.pc.AwaitCsrf? || f.pc.AwaitDelete? {
      RequestKeepsPolls(f, a);
    } else {
      ReloadKeepsPolls(f, a);
    }
  }

  lemma EarlySnoc(trail: seq<Answer>, a: Answer)
    requires FirstFinished(trail) == |trail|
    ensures FirstFinished(trail + [a]) == if a == Finished then |trail| else |trail| + 1
    ensures MayPoll(trail + [a]) <==> a == Finished && Accepted(true) in trail && Threw !in trail
  {
    FirstFinishedSnoc(trail, a);
    assert (trail + [a])[..|trail|] == trail;
  }

  lemma RequestKeepsPolls(f: Flow, a: Answer)
    requires PollsOk(f) && Step(f.pc, a).Some? && (f.pc.AwaitCsrf? || f.pc.AwaitDelete?)
    ensures PollsOk(Moved(f, a, Step(f.pc, a).value))
  {
    QuietKeepsPolls(f.trail, 0, a);
    EarlySnoc(f.trail, a);
  }

  lemma ReloadKeepsPolls(f: Flow, a: Answer)
    requires PollsOk(f) && Step(f.pc, a).Some?
    requires f.pc.AwaitRefusedReload? || f.pc.AwaitAcceptedReload? || f.pc.AwaitCaughtReload?
    ensures PollsOk(Moved(f, a, Step(f.pc, a).value))
  {
    if f.pc.AwaitAcceptedReload? {
      AcceptedKeepsPolls(f, a);
    } else if f.pc.AwaitRefusedReload? {
      RefusedKeepsPolls(f, a);
    } else {
      CaughtKeepsPolls(f, a);
    }
  }

  lemma RefusedKeepsPolls(f: Flow, a: Answer)
    requires PollsOk(f) && Step(f.pc, a).Some? && f.pc.AwaitRefusedReload?
    ensures PollsOk(Moved(f, a, Step(f.pc, a).value))
  {
    QuietKeepsPolls(f.trail, 0, a);
    EarlySnoc(f.trail, a);
  }

  lemma CaughtKeepsPolls(f: Flow, a: Answer)
    requires PollsOk(f) && Step(f.pc, a).Some? && f.pc.AwaitCaughtReload?
    ensures PollsOk(Moved(f, a, Step(f.pc, a).value))
  {
    QuietKeepsPolls(f.trail, 0, a);
    EarlySnoc(f.trail, a);
  }

  lemma AcceptedKeepsPolls(f: Flow, a: Answer)
    requires PollsOk(f) && Step(f.pc, a).Some? && f.pc.AwaitAcceptedReload?
    ensures PollsOk(Moved(f, a, Step(f.pc, a).value))
  {
    QuietKeepsPolls(f.trail, 0, a);
    EarlySnoc(f.trail, a);
  }

  lemma PollKeepsPolls(f: Flow, a: Answer)
    requires PollsOk(f) && Step(f.pc, a).Some? && f.pc.AwaitPoll?
    ensures PollsOk(Moved(f, a, Step(f.pc, a).value))
  {
    PollExtends(f.trail, f.polls, a);
  }

  lemma LateKeepsPolls(f: Flow, a: Answer)
    requires PollsOk(f) && Step(f.pc, a).Some? && f.pc.AwaitLastReload?
    ensures PollsOk(Moved(f, a, Step(f.pc, a).value))
  {
    QuietKeepsPolls(f.trail, f.polls, a);
    FirstFinishedSnoc(f.trail, a);
  }

  lemma StepKeepsPolls(f: Flow, a: Answer)
    requires PollsOk(f) && Step(f.pc, a).Some?
    ensures PollsOk(Moved(f, a, Step(f.pc, a).value))
  {
    if f.pc.AwaitPoll? {
      PollKeepsPolls(f, a);
    } else if f.pc.AwaitLastReload? {
      LateKeepsPolls(f, a);
    } else {
      EarlyKeepsPolls(f, a);
    }
  }

  lemma StepKeepsFlow(f: Flow, a: Answer)
    requires FlowOk(f) && Step(f.pc, a).Some?
    ensures FlowOk(Moved(f, a, Step(f.pc, a).value))
  {
    StepKeepsRelease(f, a);
    StepKeepsPolls(f, a);
  }

  lemma FlowMovesOn(s: State, e: Event, i: nat)
    requires i < |s.flows|
    ensures i < |Apply(s, e).flows|
    ensures Apply(s, e).flows[i] ==
      if e.Resume? && e.i == i && Step(s.flows[i].pc, e.answer).Some?
      then Moved(s.flows[i], e.answer, Step(s.flows[i].pc, e.answer).value) else s.flows[i]
  {
  }

  lemma NewFlowWaits(s: State, e: Event, i: nat)
    requires |s.flows| <= i < |Apply(s, e).flows|
    ensures e.Delete? && Apply(s, e).flows[i] == Flow(e.target, AwaitCsrf, [], false, 0)
  {
  }

  lemma WaitingIsOk(t: Target)
    ensures FlowOk(Flow(t, AwaitCsrf, [], false, 0))
  {
  }

  lemma ApplyKeepsFlow(s: State, e: Event, i: nat)
    requires i < |Apply(s, e).flows| && (i < |s.flows| ==> FlowOk(s.flows[i]))
    ensures FlowOk(Apply(s, e).flows[i])
  {
    if i < |s.flows| {
      FlowMovesOn(s, e, i);
      if e.Resume? && e.i == i && Step(s.flows[i].pc, e.answer).Some? {
        StepKeepsFlow(s.flows[i], e.answer);
      }
    } else {
      NewFlowWaits(s, e, i);
      WaitingIsOk(e.target);
    }
  }

  lemma {:induction false} ReleasedIffAnswered(kind: PanelKind, events: seq<Event>, i: nat)
    requires i < |Run(kind, events).flows|
    ensures FlowOk(Run(kind, events).flows[i])
  {
    var n := |events| - 1;
    if i < |Run(kind, events[..n]).flows| {
      ReleasedIffAnswered(kind, events[..n], i);
    }
    ApplyKeepsFlow(Run(kind, events[..n]), events[n], i);
  }

  // ---------------------------------------------------------------- the pending set, step by step

  /** The delete goes back to showing its target: its token or delete request was refused or threw, its reload
      threw, or its cleanup command ended otherwise than succeeded. */
  predicate GivesUp(pc: Pc, a: Answer) {
    || (pc.AwaitCsrf? && (a.Refused? || a.Threw?))
    || (pc.AwaitDelete? && (a.Refused? || a.Threw?))
    || ((pc.AwaitRefusedReload? || pc.AwaitAcceptedReload?) && a.Threw?)
    || (pc.AwaitPoll? && a.Status? && a.status in CLEANUP_TERMINAL && a.status != "succeeded")
  }

  predicate Submits(s: State, e: Event, t: Target) {
    e == Delete(t) && CanDelete(s, t)
  }

  predicate GivenUp(s: State, e: Event, t: Target) {
    e.Resume? && e.i < |s.flows| && s.flows[e.i].target == t && GivesUp(s.flows[e.i].pc, e.answer)
  }

  /** After any event a target is pending exactly when its delete was just submitted, or it was pending and
      no delete of it just gave up. */
  lemma PendingChangesExactly(s: State, e: Event, t: Target)
    ensures IsPending(Apply(s, e), t) <==> Submits(s, e, t) || (IsPending(s, t) && !GivenUp(s, e, t))
  {
  }

  // ---------------------------------------------------------------- the pending set over whole runs

  function Before(kind: PanelKind, events: seq<Event>, k: nat): State
    requires k <= |events|
  {
    Run(kind, events[..k])
  }

  /** Event `k` submits a delete of `t`, and no later event gives up a delete of `t`. */
  predicate StandsFrom(kind: PanelKind, events: seq<Event>, t: Target, k: nat) {
    && k < |events| && Submits(Before(kind, events, k), events[k], t)
    && forall j :: k < j < |events| ==> !GivenUp(Before(kind, events, j), events[j], t)
  }

  predicate Stands(kind: PanelKind, events: seq<Event>, t: Target) {
    exists k :: 0 <= k < |events| && StandsFrom(kind, events, t, k)
  }

  lemma StandsFromSnoc(kind: PanelKind, events: seq<Event>, e: Event, t: Target, k: nat)
    requires k < |events|
    ensures StandsFrom(kind, events + [e], t, k)
            <==> StandsFrom(kind, events, t, k) && !GivenUp(Run(kind, events), e, t)
  {
    var after := events + [e];
    assert forall j :: 0 <= j <= |events| ==> after[..j] == events[..j];
    assert after[..|events|] == events && events[..|events|] == events;
    if StandsFrom(kind, after, t, k) {
      assert !GivenUp(Before(kind, after, |events|), after[|events|], t);
      forall j | k < j < |events| ensures !GivenUp(Before(kind, events, j), events[j], t) {
        assert !GivenUp(Before(kind, after, j), after[j], t);
      }
    }
  }

  lemma StandsSnoc(kind: PanelKind, events: seq<Event>, e: Event, t: Target)
    ensures Stands(kind, events + [e], t)
            <==> Submits(Run(kind, events), e, t) || (Stands(kind, events, t) && !GivenUp(Run(kind, events), e, t))
  {
    var after := events + [e];
    assert after[..|events|] == events;
    if Stands(kind, after, t) {
      var k :| 0 <= k < |after| && StandsFrom(kind, after, t, k);
      if k < |events| {
        StandsFromSnoc(kind, events, e, t, k);
      }
    }
    if Submits(Run(kind, events), e, t) {
      assert StandsFrom(kind, after, t, |events|);
    } else if Stands(kind, events, t) && !GivenUp(Run(kind, events), e, t) {
      var k :| 0 <= k < |events| && StandsFrom(kind, events, t, k);
      StandsFromSnoc(kind, events, e, t, k);
    }
  }

  /** Over every run, deletes submitted again included: a target is pending exactly when some event submitted a
      delete of it and no delete of it gave up afterwards. */
  lemma {:induction false} PendingIffStands(kind: PanelKind, events: seq<Event>, t: Target)
    ensures IsPending(Run(kind, events), t) <==> Stands(kind, events, t)
  {
    if events != [] {
      var n := |events| - 1;
      assert events == events[..n] + [events[n]];
      PendingIffStands(kind, events[..n], t);
      StandsSnoc(kind, events[..n], events[n], t);
      PendingChangesExactly(Run(kind, events[..n]), events[n], t);
    }
  }

  // ---------------------------------------------------------------- the last delete of a target decides

  /** No later delete has the target of delete `i`. */
  predicate IsLast(flows: seq<Flow>, i: nat)
    requires i < |flows|
  {
    forall j :: i < j < |flows| ==> flows[j].target != flows[i].target
  }

  /** The last delete of `t` has not released it. */
  predicate LastHolds(flows: seq<Flow>, t: Target) {
    exists i :: 0 <= i < |flows| && flows[i].target == t && IsLast(flows, i) && !flows[i].released
  }

  /** The delete may still give up. */
  predicate MayGiveUp(pc: Pc) {
    Locks(pc) || pc.AwaitPoll?
  }

  /** Delete `i` of `t` is waiting for its token or its answer. */
  predicate Requesting(flows: seq<Flow>, t: Target, i: nat) {
    i < |flows| && flows[i].target == t && (flows[i].pc.AwaitCsrf? || flows[i].pc.AwaitDelete?)
  }

  predicate Requested(flows: seq<Flow>, t: Target) {
    exists i :: 0 <= i < |flows| && Requesting(flows, t, i)
  }

  /** Only the last delete of `t` may still give up, and one that polls has not. */
  predicate OnlyLastMayGiveUp(flows: seq<Flow>, t: Target) {
    forall i :: 0 <= i < |flows| && flows[i].target == t && MayGiveUp(flows[i].pc) ==>
      IsLast(flows, i) && (flows[i].pc.AwaitPoll? ==> !flows[i].released)
  }

  /** The dialog shows a pending target only while the request of its delete is on its way. */
  predicate DialogOk(s: State, t: Target) {
    s.dialog == Some(t) && IsPending(s, t) ==> Requested(s.flows, t)
  }

  predicate Decided(s: State, t: Target) {
    && (IsPending(s, t) <==> LastHolds(s.flows, t))
    && OnlyLastMayGiveUp(s.flows, t)
    && DialogOk(s, t)
    && (IsPending(s, t) ==> Deletable(s.kind, t))
  }

  lemma AddDecides(flows: seq<Flow>, f: Flow, t: Target)
    ensures LastHolds(flows + [f], t) <==> if f.target == t then !f.released else LastHolds(flows, t)
    ensures Requested(flows, t) ==> Requested(flows + [f], t)
  {
    var after := flows + [f];
    assert IsLast(after, |flows|) && after[|flows|] == f;
    forall i | 0 <= i < |flows| ensures IsLast(after, i) <==> IsLast(flows, i) && flows[i].target != f.target {
      assert after[|flows|].target == f.target && after[i] == flows[i];
      assert forall j :: i < j < |flows| ==> after[j] == flows[j];
    }
    if LastHolds(flows, t) && f.target != t {
      var i :| 0 <= i < |flows| && flows[i].target == t && IsLast(flows, i) && !flows[i].released;
      assert after[i].target == t && IsLast(after, i);
    }
    if Requested(flows, t) {
      var i :| 0 <= i < |flows| && Requesting(flows, t, i);
      assert Requesting(after, t, i);
    }
  }

  lemma AddKeepsOnlyLast(flows: seq<Flow>, f: Flow, t: Target)
    requires OnlyLastMayGiveUp(flows, t) && f.pc.AwaitCsrf?
    requires f.target == t ==> forall i :: 0 <= i < |flows| && flows[i].target == t ==> !MayGiveUp(flows[i].pc)
    ensures OnlyLastMayGiveUp(flows + [f], t)
  {
  }

  lemma MoveKeepsLast(flows: seq<Flow>, i: nat, g: Flow, j: nat)
    requires i < |flows| && j < |flows| && g.target == flows[i].target
    ensures IsLast(flows[i := g], j) <==> IsLast(flows, j)
  {
    var after := flows[i := g];
    assert forall k :: 0 <= k < |flows| ==> after[k].target == flows[k].target;
  }

  lemma MoveDecides(flows: seq<Flow>, i: nat, g: Flow, t: Target)
    requires i < |flows| && g.target == flows[i].target
    requires g.target == t && g.released != flows[i].released ==> g.released && IsLast(flows, i)
    ensures LastHolds(flows[i := g], t)
            <==> LastHolds(flows, t) && !(g.target == t && g.released && !flows[i].released)
  {
    var after := flows[i := g];
    forall j | 0 <= j < |flows| ensures IsLast(after, j) <==> IsLast(flows, j) {
      MoveKeepsLast(flows, i, g, j);
    }
    if LastHolds(after, t) {
      var j :| 0 <= j < |after| && after[j].target == t && IsLast(after, j) && !after[j].released;
      assert flows[j].target == t && IsLast(flows, j) && !flows[j].released;
    }
    if LastHolds(flows, t) && !(g.target == t && g.released && !flows[i].released) {
      var j :| 0 <= j < |flows| && flows[j].target == t && IsLast(flows, j) && !flows[j].released;
      assert after[j].target == t && IsLast(after, j) && !after[j].released;
    }
  }

  lemma MoveKeepsOnlyLast(flows: seq<Flow>, i: nat, g: Flow, t: Target)
    requires OnlyLastMayGiveUp(flows, t) && i < |flows| && g.target == flows[i].target
    requires MayGiveUp(g.pc) ==> MayGiveUp(flows[i].pc)
    requires g.pc.AwaitPoll? ==> !g.released
    ensures OnlyLastMayGiveUp(flows[i := g], t)
  {
    forall j | 0 <= j < |flows| ensures IsLast(flows[i := g], j) <==> IsLast(flows, j) {
      MoveKeepsLast(flows, i, g, j);
    }
  }

  lemma RequestedLocks(flows: seq<Flow>, t: Target)
    ensures Requested(flows, t) ==> Locked(flows)
  {
    if Requested(flows, t) {
      var i :| 0 <= i < |flows| && Requesting(flows, t, i);
      assert Locks(flows[i].pc);
    }
  }

  lemma PollingHolds(flows: seq<Flow>, t: Target, i: nat)
    requires OnlyLastMayGiveUp(flows, t) && i < |flows| && flows[i].target == t
    ensures flows[i].pc.AwaitPoll? ==> LastHolds(flows, t)
  {
  }

  /** When a delete of `t` is offered, no earlier delete of it may still give up. */
  lemma NothingMayGiveUp(s: State, t: Target)
    requires Decided(s, t) && CanDelete(s, t)
    ensures forall i :: 0 <= i < |s.flows| && s.flows[i].target == t ==> !MayGiveUp(s.flows[i].pc)
  {
    RequestedLocks(s.flows, t);
    forall i | 0 <= i < |s.flows| && s.flows[i].target == t ensures !MayGiveUp(s.flows[i].pc) {
      PollingHolds(s.flows, t, i);
      assert !Locks(s.flows[i].pc);
    }
  }

  lemma DeleteDecides(s: State, u: Target, t: Target)
    requires Decided(s, t) && CanDelete(s, u)
    ensures Decided(Apply(s, Delete(u)), t)
  {
    var f := Flow(u, AwaitCsrf, [], false, 0);
    AddDecides(s.flows, f, t);
    PendingChangesExactly(s, Delete(u), t);
    if u == t {
      NothingMayGiveUp(s, t);
      assert Requesting(s.flows + [f], t, |s.flows|);
    }
    AddKeepsOnlyLast(s.flows, f, t);
  }

  lemma ReleaseMeansGivesUp(f: Flow, a: Answer)
    requires Step(f.pc, a).Some?
    ensures Step(f.pc, a).value.release <==> GivesUp(f.pc, a)
    ensures GivesUp(f.pc, a) ==> MayGiveUp(f.pc)
    ensures MayGiveUp(Step(f.pc, a).value.pc) ==> MayGiveUp(f.pc)
  {
  }

  lemma MoveKeepsDialog(s: State, i: nat, a: Answer, t: Target)
    requires i < |s.flows| && DialogOk(s, t) && Step(s.flows[i].pc, a).Some?
    ensures DialogOk(Resumed(s, i, a), t)
  {
    var after := Resumed(s, i, a);
    if after.dialog == Some(t) && IsPending(after, t) {
      PendingChangesExactly(s, Resume(i, a), t);
      var j :| 0 <= j < |s.flows| && Requesting(s.flows, t, j);
      assert Requesting(after.flows, t, j);
    }
  }

  /** The answer decides about the target as it does about its last delete. */
  lemma MoveReleases(s: State, i: nat, a: Answer, t: Target)
    requires i < |s.flows| && Step(s.flows[i].pc, a).Some?
    requires (IsPending(s, t) <==> LastHolds(s.flows, t)) && OnlyLastMayGiveUp(s.flows, t)
    ensures IsPending(Resumed(s, i, a), t) <==> LastHolds(Resumed(s, i, a).flows, t)
  {
    var f := s.flows[i];
    var g := Moved(f, a, Step(f.pc, a).value);
    PendingChangesExactly(s, Resume(i, a), t);
    ReleaseMeansGivesUp(f, a);
    MoveDecides(s.flows, i, g, t);
    if f.target == t && GivesUp(f.pc, a) && f.released {
      ReleasedDoesNotHold(s.flows, t, i);
    }
  }

  lemma ReleasedDoesNotHold(flows: seq<Flow>, t: Target, i: nat)
    requires i < |flows| && flows[i].target == t && IsLast(flows, i) && flows[i].released
    ensures !LastHolds(flows, t)
  {
  }

  lemma MoveKeepsMayGiveUp(flows: seq<Flow>, i: nat, a: Answer, t: Target)
    requires i < |flows| && Step(flows[i].pc, a).Some? && FlowOk(flows[i]) && OnlyLastMayGiveUp(flows, t)
    ensures OnlyLastMayGiveUp(flows[i := Moved(flows[i], a, Step(flows[i].pc, a).value)], t)
  {
    StepKeepsRelease(flows[i], a);
    ReleaseMeansGivesUp(flows[i], a);
    MoveKeepsOnlyLast(flows, i, Moved(flows[i], a, Step(flows[i].pc, a).value), t);
  }

  lemma ResumeDecides(s: State, i: nat, a: Answer, t: Target)
    requires i < |s.flows| && FlowOk(s.flows[i]) && Decided(s, t)
    ensures Decided(Resumed(s, i, a), t)
  {
    if Step(s.flows[i].pc, a).Some? {
      MoveReleases(s, i, a, t);
      MoveKeepsMayGiveUp(s.flows, i, a, t);
      MoveKeepsDialog(s, i, a, t);
      PendingChangesExactly(s, Resume(i, a), t);
    }
  }

  lemma ShownIsNotPending(s: State, t: Target)
    requires ShowsNothingHidden(s) && Deletable(s.kind, t) && Has(s.shown, t)
    ensures !IsPending(s, t)
  {
  }

  lemma OpenDecides(s: State, u: Target, t: Target)
    requires Decided(s, t) && ShowsNothingHidden(s)
    ensures Decided(Apply(s, OpenDialog(u)), t)
  {
    if CanOpen(s, u) && u == t {
      ShownIsNotPending(s, t);
    }
  }

  lemma QuietDecides(s: State, e: Event, t: Target)
    requires Decided(s, t) && !e.Resume? && !e.Delete? && !e.OpenDialog?
    ensures Decided(Apply(s, e), t)
  {
    assert Apply(s, e).flows == s.flows && Apply(s, e).kind == s.kind;
  }

  predicate AllFlowsOk(flows: seq<Flow>) {
    forall i :: 0 <= i < |flows| ==> FlowOk(flows[i])
  }

  lemma RunFlowsOk(kind: PanelKind, events: seq<Event>)
    ensures AllFlowsOk(Run(kind, events).flows)
  {
    forall i | 0 <= i < |Run(kind, events).flows| ensures FlowOk(Run(kind, events).flows[i]) {
      ReleasedIffAnswered(kind, events, i);
    }
  }

  lemma ApplyDecides(s: State, e: Event, t: Target)
    requires Decided(s, t) && ShowsNothingHidden(s) && AllFlowsOk(s.flows)
    ensures Decided(Apply(s, e), t)
  {
    if e.Delete? {
      if CanDelete(s, e.target) {
        DeleteDecides(s, e.target, t);
      }
    } else if e.Resume? {
      if e.i < |s.flows| {
        ResumeDecides(s, e.i, e.answer, t);
      }
    } else if e.OpenDialog? {
      OpenDecides(s, e.target, t);
    } else {
      QuietDecides(s, e, t);
    }
  }

  lemma {:induction false} RunDecides(kind: PanelKind, events: seq<Event>, t: Target)
    ensures Decided(Run(kind, events), t)
  {
    if events != [] {
      var n := |events| - 1;
      RunDecides(kind, events[..n], t);
      NothingHiddenShows(kind, events[..n]);
      RunFlowsOk(kind, events[..n]);
      ApplyDecides(Run(kind, events[..n]), events[n], t);
    }
  }

  /** `t` was deleted, and no answer to its last delete releases it. */
  predicate LastStands(flows: seq<Flow>, t: Target) {
    exists i :: 0 <= i < |flows| && flows[i].target == t && IsLast(flows, i) && !Releasing(flows[i].trail)
  }

  lemma LastStandsIffHolds(flows: seq<Flow>, t: Target)
    requires AllFlowsOk(flows)
    ensures LastStands(flows, t) <==> LastHolds(flows, t)
  {
    if LastHolds(flows, t) {
      var i :| 0 <= i < |flows| && flows[i].target == t && IsLast(flows, i) && !flows[i].released;
      assert FlowOk(flows[i]);
    }
    if LastStands(flows, t) {
      var i :| 0 <= i < |flows| && flows[i].target == t && IsLast(flows, i) && !Releasing(flows[i].trail);
      assert FlowOk(flows[i]);
    }
  }

  /** In every run, however often a target was deleted: it is pending exactly when no answer to its last delete
      releases it. Success, lost polls and running out of polls leave it hidden. */
  lemma LastDeleteDecides(kind: PanelKind, events: seq<Event>, t: Target)
    ensures var s := Run(kind, events); IsPending(s, t) <==> LastStands(s.flows, t)
  {
    RunDecides(kind, events, t);
    RunFlowsOk(kind, events);
    LastStandsIffHolds(Run(kind, events).flows, t);
  }

  lemma DecidedGivesUpLast(s: State, e: Event, t: Target)
    requires Decided(s, t) && GivenUp(s, e, t)
    ensures IsLast(s.flows, e.i)
  {
    assert MayGiveUp(s.flows[e.i].pc);
  }

  /** In every run, a delete gives its target back only while no later delete of it was submitted: an old
      delete never shows what a newer one hid. */
  lemma OnlyLastGivesUp(kind: PanelKind, events: seq<Event>, e: Event, t: Target)
    requires GivenUp(Run(kind, events), e, t)
    ensures IsLast(Run(kind, events).flows, e.i)
  {
    RunDecides(kind, events, t);
    DecidedGivesUpLast(Run(kind, events), e, t);
  }

  lemma PendingIsNotShown(s: State, t: Target)
    requires ShowsNothingHidden(s) && Decided(s, t) && IsPending(s, t)
    ensures !Has(s.shown, t)
  {
    if Has(s.shown, t) {
      ShownIsNotPending(s, t);
    }
  }

  /** From the submit of its delete until a delete of it gives up, a target does not show, whatever is loaded
      meanwhile. */
  lemma HiddenWhileItStands(kind: PanelKind, events: seq<Event>, t: Target)
    requires Stands(kind, events, t)
    ensures !Has(Run(kind, events).shown, t)
  {
    PendingIffStands(kind, events, t);
    RunDecides(kind, events, t);
    NothingHiddenShows(kind, events);
    PendingIsNotShown(Run(kind, events), t);
  }

  /** A delete whose reload threw before any reload finished gave its target back and never polls, even when
      the server had accepted it. */
  lemma ThrownReloadNeverPolls(kind: PanelKind, events: seq<Event>, i: nat, k: nat)
    requires i < |Run(kind, events).flows| && k < |Run(kind, events).flows[i].trail|
    requires var t := Run(kind, events).flows[i].trail; t[k].Threw? && Finished !in t[..k]
    ensures var f := Run(kind, events).flows[i]; f.released && f.polls == 0
  {
    ReleasedIffAnswered(kind, events, i);
    var f := Run(kind, events).flows[i];
    assert ReleasingAt(f.trail, k);
    ThrownCannotPoll(f.trail, k);
  }

  lemma ThrownCannotPoll(t: seq<Answer>, k: nat)
    requires k < |t| && t[k].Threw? && Finished !in t[..k]
    ensures !MayPoll(t)
  {
    var p := FirstFinished(t);
    if p < |t| {
      assert forall j :: 0 <= j < k ==> t[j] == t[..k][j];
      assert p > k && t[..p][k] == Threw;
    }
  }

  // ---------------------------------------------------------------- runs

  /** A list that has `t`. */
  function ListOf(t: Target): seq<Item> {
    if t.Whole? then [Item(t.id, "active", false, "", [])]
    else [Item("server", "active", false, "", [Child(t.id, "active")])]
  }

  lemma RunSnoc(kind: PanelKind, events: seq<Event>, e: Event)
    ensures Run(kind, events + [e]) == Apply(Run(kind, events), e)
  {
    assert (events + [e])[..|events|] == events;
  }

  lemma ActiveIsNotDeleted()
    ensures !Deleted("active")
  {
  }

  lemma ListOfShows(s: State, t: Target)
    requires Deletable(s.kind, t) && s.pending == {} && s.pendingNodes == {}
    ensures Has(Apply(s, Load(ListOf(t))).shown, t)
  {
    ActiveIsNotDeleted();
    if t.Whole? {
      VisibleHasWhole(s.kind, ListOf(t), {}, {}, t.id);
      assert ListOf(t)[0] in ListOf(t) && Shows(s.kind, ListOf(t)[0], {});
    } else {
      VisibleHasNode(ListOf(t), {}, {}, t.id);
      assert ListOf(t)[0] in ListOf(t) && ListOf(t)[0].nodes[0] in ListOf(t)[0].nodes;
    }
  }

  /** The dialog shows `t`, nothing is pending, and the deletes are `flows`. */
  predicate Choosing(s: State, t: Target, flows: seq<Flow>) {
    && Deletable(s.kind, t) && s.dialog == Some(t) && Has(s.shown, t) && s.pending == {} && s.pendingNodes == {}
    && s.flows == flows && !Locked(flows)
  }

  /** From a fresh mount to the dialog of `t`. */
  function Chosen(t: Target): seq<Event> {
    [] + [Load(ListOf(t))] + [OpenDialog(t)]
  }

  lemma OpensDialog(s: State, t: Target)
    requires Deletable(s.kind, t) && Has(s.shown, t) && s.pending == {} && s.pendingNodes == {} && s.flows == []
    ensures Choosing(Apply(s, OpenDialog(t)), t, [])
  {
  }

  lemma LoadKeepsRest(s: State, list: seq<Item>)
    ensures Apply(s, Load(list)) == s.(shown := Apply(s, Load(list)).shown)
  {
  }

  lemma ChosenIsChoosing(kind: PanelKind, t: Target)
    requires Deletable(kind, t)
    ensures Choosing(Run(kind, Chosen(t)), t, [])
  {
    ListOfShows(Init(kind), t);
    LoadKeepsRest(Init(kind), ListOf(t));
    OpensDialog(Apply(Init(kind), Load(ListOf(t))), t);
    RunSnoc(kind, [], Load(ListOf(t)));
    RunSnoc(kind, [] + [Load(ListOf(t))], OpenDialog(t));
  }

  lemma DeleteStarts(s: State, t: Target)
    requires Choosing(s, t, s.flows)
    ensures var o := Apply(s, Delete(t));
      && o.flows == s.flows + [Flow(t, AwaitCsrf, [], false, 0)] && o.kind == s.kind && IsPending(o, t)
      && o.dialog == Some(t) && Release(o, t).pending == {} && Release(o, t).pendingNodes == {}
  {
  }

  lemma FirstMoves(s: State, a: Answer)
    requires |s.flows| > 0 && Step(s.flows[0].pc, a).Some?
    ensures Apply(s, Resume(0, a)).flows
            == s.flows[0 := Moved(s.flows[0], a, Step(s.flows[0].pc, a).value)]
  {
  }

  /** An accepted delete whose reload throws. */
  function AcceptedThenThrown(t: Target): seq<Event> {
    Chosen(t) + [Delete(t)] + [Resume(0, Token)] + [Resume(0, Accepted(true))] + [Resume(0, Threw)]
  }

  lemma AcceptedDeleteComesBack(kind: PanelKind, t: Target)
    requires Deletable(kind, t)
    ensures var s := Run(kind, AcceptedThenThrown(t));
            !IsPending(s, t) && |s.flows| == 1 && Accepted(true) in s.flows[0].trail && s.flows[0].polls == 0
  {
    ChosenIsChoosing(kind, t);
    DeleteStarts(Run(kind, Chosen(t)), t);
    RunSnoc(kind, Chosen(t), Delete(t));
    var e := Chosen(t) + [Delete(t)];
    RunSnoc(kind, e, Resume(0, Token));
    FirstMoves(Run(kind, e), Token);
    e := e + [Resume(0, Token)];
    RunSnoc(kind, e, Resume(0, Accepted(true)));
    FirstMoves(Run(kind, e), Accepted(true));
    e := e + [Resume(0, Accepted(true))];
    RunSnoc(kind, e, Resume(0, Threw));
    FirstMoves(Run(kind, e), Threw);
    PendingChangesExactly(Run(kind, e), Resume(0, Threw), t);
  }

  /** A refused delete, submitted again once the list was reloaded. */
  function RefusedThenRetried(t: Target): seq<Event> {
    Refusing(t) + [Resume(0, Listed(ListOf(t)))] + [Resume(0, Finished)] + [Delete(t)]
  }

  function Refusing(t: Target): seq<Event> {
    Chosen(t) + [Delete(t)] + [Resume(0, Token)] + [Resume(0, Refused)]
  }

  /** One delete of `t`, released; it reads the list again. */
  predicate Rereading(s: State, t: Target) {
    && Deletable(s.kind, t) && s.dialog == Some(t) && s.pending == {} && s.pendingNodes == {}
    && |s.flows| == 1 && s.flows[0].target == t && s.flows[0].released && s.flows[0].pc.AwaitRefusedReload?
  }

  lemma RefusedRereads(kind: PanelKind, t: Target)
    requires Deletable(kind, t)
    ensures Rereading(Run(kind, Refusing(t)), t)
  {
    ChosenIsChoosing(kind, t);
    DeleteStarts(Run(kind, Chosen(t)), t);
    RunSnoc(kind, Chosen(t), Delete(t));
    var e := Chosen(t) + [Delete(t)];
    RunSnoc(kind, e, Resume(0, Token));
    TokenMoves(Run(kind, e), t);
    e := e + [Resume(0, Token)];
    RunSnoc(kind, e, Resume(0, Refused));
    RefusalMoves(Run(kind, e), t);
  }

  /** The only delete is one of `t`, nothing else is pending, and the dialog shows it. */
  predicate OnlyDelete(s: State, t: Target, pc: Pc) {
    && Deletable(s.kind, t) && s.dialog == Some(t) && |s.flows| == 1 && s.flows[0].target == t && s.flows[0].pc == pc
    && Release(s, t).pending == {} && Release(s, t).pendingNodes == {}
  }

  lemma TokenMoves(s: State, t: Target)
    requires OnlyDelete(s, t, AwaitCsrf)
    ensures OnlyDelete(Apply(s, Resume(0, Token)), t, AwaitDelete)
  {
  }

  lemma RefusalMoves(s: State, t: Target)
    requires OnlyDelete(s, t, AwaitDelete)
    ensures Rereading(Apply(s, Resume(0, Refused)), t)
  {
  }

  lemma ListReturns(s: State, t: Target)
    requires Rereading(s, t)
    ensures var o := Apply(s, Resume(0, Listed(ListOf(t)))); Rereading(o, t) && Has(o.shown, t)
  {
    ListOfShows(s, t);
  }

  lemma RereadEnds(s: State, t: Target)
    requires Rereading(s, t) && Has(s.shown, t)
    ensures var o := Apply(s, Resume(0, Finished));
      |o.flows| == 1 && o.flows[0].released && o.flows[0].target == t && Choosing(o, t, o.flows)
  {
  }

  /** The retry hides the target again: its first delete was given up, its second stands. */
  lemma RetriedDeleteHides(kind: PanelKind, t: Target)
    requires Deletable(kind, t)
    ensures var s := Run(kind, RefusedThenRetried(t));
      IsPending(s, t) && |s.flows| == 2 && s.flows[0].released && s.flows[0].target == t && !Has(s.shown, t)
  {
    RefusedRereads(kind, t);
    var e := Refusing(t);
    ListReturns(Run(kind, e), t);
    RunSnoc(kind, e, Resume(0, Listed(ListOf(t))));
    e := e + [Resume(0, Listed(ListOf(t)))];
    RereadEnds(Run(kind, e), t);
    RunSnoc(kind, e, Resume(0, Finished));
    e := e + [Resume(0, Finished)];
    RunSnoc(kind, e, Delete(t));
    DeleteStarts(Run(kind, e), t);
    RunDecides(kind, RefusedThenRetried(t), t);
    NothingHiddenShows(kind, RefusedThenRetried(t));
    PendingIsNotShown(Run(kind, RefusedThenRetried(t)), t);
  }

  // ---------------------------------------------------------------- coming back

  /** A load shows a target exactly when it is not pending and the list has it undeleted. */
  lemma LoadShowsIff(kind: PanelKind, events: seq<Event>, list: seq<Item>, t: Target)
    requires t.Whole? || kind == Servers
    ensures var s := Run(kind, events);
            Has(Apply(s, Load(list)).shown, t) <==> !IsPending(s, t) && HasLive(kind, list, t, s.pending)
  {
    NothingHiddenShows(kind, events);
    var s := Run(kind, events);
    if t.Whole? {
      VisibleHasWhole(kind, list, s.pending, s.pendingNodes, t.id);
    } else {
      VisibleHasNode(list, s.pending, s.pendingNodes, t.id);
    }
  }

  lemma VisibleItemNodes(kind: PanelKind, x: Item, pendingNodes: set<string>)
    ensures forall n :: n in VisibleItem(kind, x, pendingNodes).nodes ==> n in x.nodes
  {
  }

  lemma MarkShowsNoMore(s: State, t: Target, u: Target)
    requires Has(Mark(s, t).shown, u)
    ensures Has(s.shown, u)
  {
    var m := Mark(s, t);
    if u.Whole? {
      VisibleHasWhole(s.kind, s.shown, m.pending, m.pendingNodes, u.id);
    } else {
      var y :| y in m.shown && exists n :: n in y.nodes && n.id == u.id;
      var x :| x in s.shown && Shows(s.kind, x, m.pending) && y == VisibleItem(s.kind, x, m.pendingNodes);
      var n :| n in y.nodes && n.id == u.id;
      VisibleItemNodes(s.kind, x, m.pendingNodes);
    }
  }

  lemma RenameShowsNoMore(xs: seq<Item>, id: string, name: string, u: Target)
    requires Has(Renamed(xs, id, name), u)
    ensures Has(xs, u)
  {
    var r := Renamed(xs, id, name);
    if u.Whole? {
      var k :| 0 <= k < |r| && r[k].id == u.id;
      assert xs[k] in xs && xs[k].id == u.id;
    } else {
      var k :| 0 <= k < |r| && exists n :: n in r[k].nodes && n.id == u.id;
      var n :| n in r[k].nodes && n.id == u.id;
      assert xs[k] in xs && n in xs[k].nodes;
    }
  }

  /** Nothing appears but by a list load: releasing a target alone does not bring it back. */
  lemma OnlyLoadsShowMore(s: State, e: Event, u: Target)
    requires !e.Load? && !(e.Resume? && e.answer.Listed?)
    requires Has(Apply(s, e).shown, u)
    ensures Has(s.shown, u)
  {
    match e
    case Delete(t) =>
      if CanDelete(s, t) {
        MarkShowsNoMore(s, t, u);
      }
    case Rename(id, name) =>
      if s.kind == Routes {
        RenameShowsNoMore(s.shown, id, name, u);
      }
    case _ =>
  }

  // ---------------------------------------------------------------- what shows, exactly

  /** The wait is inside a list reload: after a refusal, after an accepted delete, after an exception, or after
      the cleanup polls. */
  predicate Reloads(pc: Pc) {
    pc.AwaitRefusedReload? || pc.AwaitAcceptedReload? || pc.AwaitCaughtReload? || pc.AwaitLastReload?
  }

  /** The list this event writes, if it writes one. */
  function WrittenList(s: State, e: Event): Option<seq<Item>> {
    match e
    case Load(list) => Some(list)
    case Resume(i, a) => if i < |s.flows| && Reloads(s.flows[i].pc) && a.Listed? then Some(a.list) else None
    case _ => None
  }

  predicate HasNode(x: Item, id: string) {
    exists n :: n in x.nodes && n.id == id
  }

  /** `u` is in the list besides the target `t`, for a node also under another entry than `t`. */
  predicate HasBeside(xs: seq<Item>, u: Target, t: Target) {
    u != t &&
    match u
    case Whole(_) => Has(xs, u)
    case Node(id) => exists x :: x in xs && (t.Whole? ==> x.id != t.id) && HasNode(x, id)
  }

  /** What shows after an event: after a list write, what the list has live and is not pending; after a delete that
      starts, what showed besides its target; otherwise what showed. */
  predicate ShowsNext(s: State, e: Event, u: Target) {
    var list := WrittenList(s, e);
    if list.Some? then !IsPending(s, u) && HasLive(s.kind, list.value, u, s.pending)
    else if e.Delete? && CanDelete(s, e.target) then HasBeside(s.shown, u, e.target)
    else Has(s.shown, u)
  }

  lemma SetVisibleShows(s: State, list: seq<Item>, u: Target)
    requires Deletable(s.kind, u)
    ensures Has(SetVisible(s, list).shown, u) <==> !IsPending(s, u) && HasLive(s.kind, list, u, s.pending)
  {
    if u.Whole? {
      VisibleHasWhole(s.kind, list, s.pending, s.pendingNodes, u.id);
    } else {
      VisibleHasNode(list, s.pending, s.pendingNodes, u.id);
    }
  }

  lemma MarkedShows(s: State, t: Target, u: Target)
    requires ShowsNothingHidden(s) && Deletable(s.kind, t) && Deletable(s.kind, u)
    ensures Has(Mark(s, t).shown, u) <==> HasBeside(s.shown, u, t)
  {
    var m := Mark(s, t);
    assert m.shown == Visible(s.kind, s.shown, m.pending, m.pendingNodes);
    if u.Whole? {
      VisibleHasWhole(s.kind, s.shown, m.pending, m.pendingNodes, u.id);
      MarkedWhole(s, t, u);
    } else {
      VisibleHasNode(s.shown, m.pending, m.pendingNodes, u.id);
      MarkedNode(s, t, u);
    }
  }

  lemma MarkedWhole(s: State, t: Target, u: Target)
    requires ShowsNothingHidden(s) && Deletable(s.kind, t) && u.Whole?
    ensures var m := Mark(s, t);
      u.id !in m.pending && HasLive(s.kind, s.shown, u, m.pending) <==> HasBeside(s.shown, u, t)
  {
  }

  lemma CleanNodeIsLive(s: State, x: Item, id: string)
    requires ShowsNothingHidden(s) && s.kind == Servers && x in s.shown
    ensures HasLiveNode(x, id) <==> HasNode(x, id)
    ensures Live(Servers, x) && x.id !in s.pending
  {
  }

  lemma MarkedNode(s: State, t: Target, u: Target)
    requires ShowsNothingHidden(s) && s.kind == Servers && u.Node?
    ensures var m := Mark(s, t);
      u.id !in m.pendingNodes && HasLive(Servers, s.shown, u, m.pending) <==> HasBeside(s.shown, u, t)
  {
    var m := Mark(s, t);
    if HasBeside(s.shown, u, t) {
      var x :| x in s.shown && (t.Whole? ==> x.id != t.id) && HasNode(x, u.id);
      CleanNodeIsLive(s, x, u.id);
      assert x.id !in m.pending;
      MarkKeepsNode(s, t, u);
    }
    if u.id !in m.pendingNodes && HasLive(Servers, s.shown, u, m.pending) {
      var x :| x in s.shown && x.id !in m.pending && Live(Servers, x) && HasLiveNode(x, u.id);
      CleanNodeIsLive(s, x, u.id);
      assert HasNode(x, u.id) && (t.Whole? ==> x.id != t.id);
    }
  }

  /** A listed node stays unmarked when another target is marked. */
  lemma MarkKeepsNode(s: State, t: Target, u: Target)
    requires ShowsNothingHidden(s) && s.kind == Servers && u.Node? && HasBeside(s.shown, u, t)
    ensures u.id !in Mark(s, t).pendingNodes
  {
    var x :| x in s.shown && (t.Whole? ==> x.id != t.id) && HasNode(x, u.id);
    var n :| n in x.nodes && n.id == u.id;
  }

  lemma RenamedHas(xs: seq<Item>, id: string, name: string, u: Target)
    ensures Has(Renamed(xs, id, name), u) <==> Has(xs, u)
  {
    if Has(Renamed(xs, id, name), u) {
      RenameShowsNoMore(xs, id, name, u);
    }
    if Has(xs, u) {
      var r := Renamed(xs, id, name);
      if u.Whole? {
        var k :| 0 <= k < |xs| && xs[k].id == u.id;
        assert r[k] in r && r[k].id == u.id;
      } else {
        var k :| 0 <= k < |xs| && exists n :: n in xs[k].nodes && n.id == u.id;
        var n :| n in xs[k].nodes && n.id == u.id;
        assert r[k] in r && n in r[k].nodes;
      }
    }
  }

  lemma ReloadTakesList(pc: Pc, a: Answer)
    requires a.Listed?
    ensures if Reloads(pc) then Step(pc, a) == Some(Effect(pc, false)) else Step(pc, a) == None
  {
  }

  lemma ResumeShows(s: State, i: nat, a: Answer, u: Target)
    requires i < |s.flows| && Deletable(s.kind, u)
    ensures Has(Apply(s, Resume(i, a)).shown, u) <==> ShowsNext(s, Resume(i, a), u)
  {
    if a.Listed? {
      ReloadTakesList(s.flows[i].pc, a);
      SetVisibleShows(s, a.list, u);
    } else {
      QuietResume(s, i, a);
    }
  }

  lemma QuietResume(s: State, i: nat, a: Answer)
    requires i < |s.flows| && !a.Listed?
    ensures Apply(s, Resume(i, a)).shown == s.shown
  {
  }

  lemma ApplyShows(s: State, e: Event, u: Target)
    requires ShowsNothingHidden(s) && Deletable(s.kind, u)
    ensures Has(Apply(s, e).shown, u) <==> ShowsNext(s, e, u)
  {
    if e.Load? {
      SetVisibleShows(s, e.list, u);
    } else if e.Resume? {
      if e.i < |s.flows| {
        ResumeShows(s, e.i, e.answer, u);
      }
    } else if e.Delete? {
      if CanDelete(s, e.target) {
        MarkedShows(s, e.target, u);
      }
    } else if e.Rename? {
      RenamedHas(s.shown, e.id, e.name, u);
    }
  }

  /** In every run and after every event, for every target the panel can delete: what shows is exactly what
      `ShowsNext` says, wherever the list was fetched. */
  lemma ShownChangesExactly(kind: PanelKind, events: seq<Event>, e: Event, u: Target)
    requires Deletable(kind, u)
    ensures var s := Run(kind, events); Has(Apply(s, e).shown, u) <==> ShowsNext(s, e, u)
  {
    NothingHiddenShows(kind, events);
    ApplyShows(Run(kind, events), e, u);
  }

  /** A list fetched inside a delete, at any of its reloads: a target shows after it exactly when no answer to its
      last delete stands in the way and the list has it live. */
  lemma ReloadShowsIff(kind: PanelKind, events: seq<Event>, i: nat, list: seq<Item>, u: Target)
    requires i < |Run(kind, events).flows| && Reloads(Run(kind, events).flows[i].pc) && Deletable(kind, u)
    ensures var s := Run(kind, events);
      Has(Apply(s, Resume(i, Listed(list))).shown, u)
      <==> !LastStands(s.flows, u) && HasLive(kind, list, u, s.pending)
  {
    ShownChangesExactly(kind, events, Resume(i, Listed(list)), u);
    LastDeleteDecides(kind, events, u);
    NothingHiddenShows(kind, events);
  }

  /** A target that a failed cleanup released shows after the reload that follows exactly when it was not deleted
      again with success and the list has it live. */
  lemma FailedCleanupShowsAgain(kind: PanelKind, events: seq<Event>, i: nat, list: seq<Item>)
    requires i < |Run(kind, events).flows|
    requires var f := Run(kind, events).flows[i];
             f.pc.AwaitLastReload? && f.released && IsLast(Run(kind, events).flows, i)
    ensures var s := Run(kind, events);
            var t := s.flows[i].target;
      && Deletable(kind, t)
      && (Has(Apply(s, Resume(i, Listed(list))).shown, t) <==> HasLive(kind, list, t, s.pending))
  {
    var s := Run(kind, events);
    TargetsAreDeletable(kind, events, i);
    ReloadShowsIff(kind, events, i, list, s.flows[i].target);
    ReleasedIffAnswered(kind, events, i);
    LastReleasedFalls(s.flows, i);
  }

  lemma LastReleasedFalls(flows: seq<Flow>, i: nat)
    requires i < |flows| && IsLast(flows, i) && Releasing(flows[i].trail)
    ensures !LastStands(flows, flows[i].target)
  {
  }

  lemma ApplyKeepsDeletable(s: State, e: Event, i: nat)
    requires i < |Apply(s, e).flows| && (i < |s.flows| ==> Deletable(s.kind, s.flows[i].target))
    ensures Deletable(s.kind, Apply(s, e).flows[i].target)
  {
  }

  lemma {:induction false} TargetsAreDeletable(kind: PanelKind, events: seq<Event>, i: nat)
    requires i < |Run(kind, events).flows|
    ensures Deletable(kind, Run(kind, events).flows[i].target)
  {
    var n := |events| - 1;
    NothingHiddenShows(kind, events[..n]);
    if i < |Run(kind, events[..n]).flows| {
      TargetsAreDeletable(kind, events[..n], i);
    }
    ApplyKeepsDeletable(Run(kind, events[..n]), events[n], i);
  }

  // ---------------------------------------------------------------- polling, dialog and lock, exactly

  /** What is polled after an event. */
  function PolledNext(s: State, e: Event): Option<string> {
    match e
    case StartPolling(id) =>
      if s.kind == Routes then s.polled else if id in s.pending then None else Some(id)
    case Tick(id) => if id in s.pending then None else s.polled
    case StopPolling => None
    case Delete(t) => if CanDelete(s, t) && t.Whole? && s.polled == Some(t.id) then None else s.polled
    case _ => s.polled
  }

  /** A heartbeat wait starts only for an entry that is not pending, and ends when it is stopped, finds a pending
      entry or its entry is deleted. */
  lemma PolledChangesExactly(s: State, e: Event)
    ensures Apply(s, e).polled == PolledNext(s, e)
  {
  }

  /** The delete button is locked from the submit until the reload after the answer has ended: while some delete
      neither polls its command, nor reads the list a last time, nor has finished. */
  lemma LockedUntilReloaded(flows: seq<Flow>)
    ensures Locked(flows) <==>
      exists i :: 0 <= i < |flows| && !flows[i].pc.AwaitPoll? && !flows[i].pc.AwaitLastReload? && !flows[i].pc.Done?
  {
    if Locked(flows) {
      var i :| 0 <= i < |flows| && Locks(flows[i].pc);
      assert !flows[i].pc.AwaitPoll?;
    }
    if i :| 0 <= i < |flows| && !flows[i].pc.AwaitPoll? && !flows[i].pc.AwaitLastReload? && !flows[i].pc.Done? {
      assert Locks(flows[i].pc);
    }
  }

  /** The dialog opens on a listed target, closes when it is closed or its delete accepted, and stays otherwise. */
  lemma DialogChangesExactly(s: State, e: Event)
    ensures Apply(s, e).dialog ==
      match e
      case OpenDialog(t) =>
        if (t.Whole? || s.kind == Servers) && Has(s.shown, t) && !(s.kind == Routes && Locked(s.flows)) then Some(t)
        else s.dialog
      case CloseDialog => None
      case Resume(i, a) =>
        if i < |s.flows| && s.flows[i].pc.AwaitDelete? && a.Accepted? then None else s.dialog
      case _ => s.dialog
  {
  }

  /** A delete starts exactly when its dialog shows with the button enabled. */
  lemma DeleteStartsIff(s: State, t: Target)
    ensures var o := Apply(s, Delete(t));
      if (t.Whole? || s.kind == Servers) && s.dialog == Some(t) && !Locked(s.flows)
         && (s.kind == Routes ==> Has(s.shown, t))
      then o.flows == s.flows + [Flow(t, AwaitCsrf, [], false, 0)] else o == s
  {
  }

  // ---------------------------------------------------------------- every delete ends

  /** A bound on the answers still to come, lists aside. */
  function AnswersLeft(pc: Pc): nat {
    match pc
    case AwaitCsrf => 34
    case AwaitDelete => 33
    case AwaitRefusedReload => 2
    case AwaitAcceptedReload(_) => 32
    case AwaitCaughtReload => 1
    case AwaitPoll(n) => if n < 30 then 31 - n else 2
    case AwaitLastReload => 1
    case Done => 0
  }

  /** Every answer but a list moves a delete on: it ends after at most 34 of them. */
  lemma AnswersMoveOn(pc: Pc, a: Answer)
    requires Step(pc, a).Some?
    ensures if a.Listed? then Step(pc, a).value.pc == pc else AnswersLeft(Step(pc, a).value.pc) < AnswersLeft(pc)
  {
  }

  /** Which answers a wait takes: an exception ends any of them. */
  lemma TakesIff(pc: Pc, a: Answer)
    ensures Step(pc, a).Some? <==>
      match a
      case Threw => !pc.Done?
      case Refused => pc.AwaitCsrf? || pc.AwaitDelete? || pc.AwaitPoll?
      case Token => pc.AwaitCsrf?
      case Accepted(_) => pc.AwaitDelete?
      case Listed(_) => Reloads(pc)
      case Finished => Reloads(pc)
      case Status(_) => pc.AwaitPoll?
  {
  }
}
