/** The deletion machine as the panels hold it: a pending set behind a ref, a shown list, the polled entry and the
    target of the delete dialog, written by handlers, the submit handler continued after every await. `View` is the
    machine state; `Valid` says that nothing pending or deleted shows, and every handler keeps it. */
module ManagementPanel {
  import opened Text
  import opened DeletionPanel
  import opened DeletionTheorems

  /** One poll of a cleanup command: its status, an error answer, or an exception. */
  datatype Poll = Seen(status: string) | Unread | Lost

  /** A poll that ends the wait. */
  predicate Ends(p: Poll) {
    p.Lost? || (p.Seen? && p.status in CLEANUP_TERMINAL)
  }

  /** The answer of the delete request. */
  datatype Reply = Taken(hasCommand: bool) | NotTaken | ReplyRaised

  /** A list load inside a delete: the list it fetched and wrote, if any, and whether it threw then. */
  datatype Reload = Reload(list: Option<seq<Item>>, raised: bool)

  function Loaded(s: State, reload: Reload): State {
    if reload.list.Some? then SetVisible(s, reload.list.value) else s
  }

  // ---------------------------------------------------------------- the cleanup polls of the machine

  function PollAnswer(p: Poll): Answer {
    match p
    case Seen(status) => Status(status)
    case Unread => Refused
    case Lost => Threw
  }

  /** The machine fed with polls `k`, `k + 1`, ... as long as delete `i` waits for them. */
  function Polled(s: State, i: nat, read: nat -> Poll, k: nat): State
    requires i < |s.flows|
    decreases MAX_POLLS - k
  {
    if k < MAX_POLLS && s.flows[i].pc == AwaitPoll(k) then Polled(Resumed(s, i, PollAnswer(read(k))), i, read, k + 1)
    else s
  }

  /** The polls made from poll `k` on: up to the first that ends the wait, thirty at most. */
  function PollsMade(read: nat -> Poll, k: nat): (n: nat)
    requires k < MAX_POLLS
    ensures k < n <= MAX_POLLS
    ensures forall j :: k <= j < n - 1 ==> !Ends(read(j))
    ensures n < MAX_POLLS ==> Ends(read(n - 1))
    decreases MAX_POLLS - k
  {
    if Ends(read(k)) || k + 1 == MAX_POLLS then k + 1 else PollsMade(read, k + 1)
  }

  /** Whatever polls up to the first poll that ends the wait, thirty times at most, makes as many polls. */
  lemma {:induction false} PollsAreMade(read: nat -> Poll, k: nat, polls: nat)
    requires k < polls <= MAX_POLLS && (forall j :: k <= j < polls - 1 ==> !Ends(read(j)))
    requires polls < MAX_POLLS ==> Ends(read(polls - 1))
    ensures polls == PollsMade(read, k)
    decreases polls - k
  {
    if k + 1 < polls {
      PollsAreMade(read, k + 1, polls);
    }
  }

  /** The command ended otherwise than succeeded. */
  predicate Failed(p: Poll) {
    p.Seen? && p.status in CLEANUP_TERMINAL && p.status != "succeeded"
  }

  /** Delete `i` of `t` came from `s` through the polls up to `n`: only a failed cleanup changed more than it. */
  predicate PolledTo(s: State, i: nat, read: nat -> Poll, n: nat, t: State)
    requires i < |s.flows| && n > 0
  {
    && |t.flows| == |s.flows|
    && t.flows[i].pc == (if read(n - 1).Lost? then Done else AwaitLastReload)
    && t.flows[i].target == s.flows[i].target
    && t == (if Failed(read(n - 1)) then Release(s, s.flows[i].target) else s).(flows := s.flows[i := t.flows[i]])
  }

  lemma OnePoll(s: State, i: nat, p: Poll, k: nat)
    requires i < |s.flows| && s.flows[i].pc == AwaitPoll(k) && k < MAX_POLLS
    ensures var t := Resumed(s, i, PollAnswer(p));
      && |t.flows| == |s.flows| && t.flows[i].target == s.flows[i].target
      && t.flows[i].pc == (if p.Lost? then Done else if Ends(p) || k + 1 == MAX_POLLS then AwaitLastReload
                           else AwaitPoll(k + 1))
      && t == (if Failed(p) then Release(s, s.flows[i].target) else s).(flows := s.flows[i := t.flows[i]])
  {
  }

  lemma PolledOnFrom(s: State, i: nat, read: nat -> Poll, n: nat, u: State, t: State)
    requires i < |s.flows| && n > 0 && i < |u.flows|
    requires u == s.(flows := s.flows[i := u.flows[i]]) && u.flows[i].target == s.flows[i].target
    requires PolledTo(u, i, read, n, t)
    ensures PolledTo(s, i, read, n, t)
  {
    assert u.flows[i := t.flows[i]] == s.flows[i := t.flows[i]];
  }

  /** The machine, fed poll by poll, does what the loop of `refreshWhenCleanupCommandCompletes` does: it polls up
      to the first poll that ends the wait, thirty times at most, and a failed cleanup releases the target. */
  lemma {:induction false} MachinePollsLikeTheLoop(s: State, i: nat, read: nat -> Poll, k: nat)
    requires k < MAX_POLLS && i < |s.flows| && s.flows[i].pc == AwaitPoll(k)
    ensures PolledTo(s, i, read, PollsMade(read, k), Polled(s, i, read, k))
    decreases MAX_POLLS - k
  {
    var u := Resumed(s, i, PollAnswer(read(k)));
    OnePoll(s, i, read(k), k);
    if !Ends(read(k)) && k + 1 < MAX_POLLS {
      MachinePollsLikeTheLoop(u, i, read, k + 1);
      PolledOnFrom(s, i, read, PollsMade(read, k), u, Polled(s, i, read, k));
    }
  }

  class Panel {
    const kind: PanelKind
    var shown: seq<Item>
    var pendingDeletedIds: set<string>
    var pendingDeletedNodeIds: set<string>
    var pollingId: Option<string>
    var selected: Option<Target>
    var flows: seq<Flow>

    function View(): State
      reads this
    {
      State(kind, shown, pendingDeletedIds, pendingDeletedNodeIds, pollingId, selected, flows)
    }

    predicate Valid()
      reads this
    {
      ShowsNothingHidden(View())
    }

    constructor (kind: PanelKind)
      ensures View() == Init(kind) && Valid()
    {
      this.kind := kind;
      shown, pendingDeletedIds, pendingDeletedNodeIds, pollingId, selected, flows := [], {}, {}, None, None, [];
    }

    /** Whatever the list holds and whenever its fetch began, it is filtered by what is pending now. */
    method LoadList(list: seq<Item>)
      requires Valid()
      modifies `shown
      ensures Valid() && View() == Apply(old(View()), Load(list))
    {
      ListedKeepsHidden(View(), list);
      shown := Visible(kind, list, pendingDeletedIds, pendingDeletedNodeIds);
    }

    method MarkPendingDelete(t: Target)
      requires Valid()
      modifies this
      ensures Valid() && View() == Mark(old(View()), t) && IsPending(View(), t)
    {
      MarkKeepsHidden(View(), t);
      if t.Whole? {
        pendingDeletedIds := pendingDeletedIds + {t.id};
        if pollingId == Some(t.id) {
          pollingId := None;
        }
      } else {
        pendingDeletedNodeIds := pendingDeletedNodeIds + {t.id};
      }
      shown := Visible(kind, shown, pendingDeletedIds, pendingDeletedNodeIds);
    }

    method ReleasePendingDelete(t: Target)
      requires Valid()
      modifies `pendingDeletedIds, `pendingDeletedNodeIds
      ensures Valid() && View() == Release(old(View()), t) && !IsPending(View(), t)
    {
      ReleaseKeepsHidden(View(), t);
      if t.Whole? {
        pendingDeletedIds := pendingDeletedIds - {t.id};
      } else {
        pendingDeletedNodeIds := pendingDeletedNodeIds - {t.id};
      }
    }

    method RenameRoute(id: string, name: string)
      requires Valid()
      modifies `shown
      ensures Valid() && View() == Apply(old(View()), Rename(id, name))
    {
      RenameKeepsHidden(View(), id, name);
      if kind == Routes {
        shown := Renamed(shown, id, name);
      }
    }

    method StartWorkerInstallPolling(id: string)
      requires Valid()
      modifies `pollingId
      ensures Valid() && View() == Apply(old(View()), StartPolling(id))
    {
      if kind != Routes {
        pollingId := Some(id);
        PollHeartbeat(id);
      }
    }

    /** The head of a heartbeat poll, up to its fetch. */
    method PollHeartbeat(id: string)
      modifies `pollingId
      ensures View() == Apply(old(View()), Tick(id))
    {
      if pollingId != Some(id) || id in pendingDeletedIds {
        if id in pendingDeletedIds {
          pollingId := None;
        }
      }
    }

    /** The delete button of a listed entry: its target is not pending. */
    method OpenDelete(t: Target)
      requires Valid()
      modifies `selected
      ensures Valid() && View() == Apply(old(View()), OpenDialog(t))
      ensures selected == Some(t) && old(selected) != Some(t) ==> !IsPending(View(), t)
    {
      if CanOpen(View(), t) {
        ShownIsNotPending(View(), t);
        selected := Some(t);
      }
    }

    method CloseModal()
      requires Valid()
      modifies `selected
      ensures Valid() && View() == Apply(old(View()), CloseDialog)
    {
      selected := None;
    }

    /** An enabled delete click hides the target before the first await and takes the lock; any other click does
        nothing. */
    method SubmitDelete(t: Target)
      requires Valid()
      modifies this
      ensures Valid() && View() == Apply(old(View()), Delete(t))
      ensures old(CanDelete(View(), t)) ==> IsPending(View(), t) && !Has(shown, t) && Locked(flows)
      ensures !old(CanDelete(View(), t)) ==> View() == old(View())
    {
      if CanDelete(View(), t) {
        MarkPendingDelete(t);
        PendingIsHidden(View(), t);
        flows := flows + [Flow(t, AwaitCsrf, [], false, 0)];
        assert Locks(flows[|flows| - 1].pc);
      }
    }

    lemma PendingIsHidden(s: State, t: Target)
      requires ShowsNothingHidden(s) && Deletable(s.kind, t) && IsPending(s, t)
      ensures !Has(s.shown, t)
    {
      if Has(s.shown, t) {
        ShownIsNotPending(s, t);
      }
    }

    // ------------------------------------------------------------ the submit handlers after their awaits

    method MoveOn(i: nat, answer: Answer, pc: Pc)
      requires i < |flows|
      modifies `flows
      ensures flows == old(flows)[i := Moved(old(flows)[i], answer, Effect(pc, false))]
    {
      var f := flows[i];
      flows := flows[i := Flow(f.target, pc, f.trail + [answer], f.released,
                               f.polls + if f.pc.AwaitPoll? then 1 else 0)];
    }

    /** The delete gives its target back. */
    method GiveUp(i: nat, answer: Answer, pc: Pc)
      requires Valid() && i < |flows|
      modifies `pendingDeletedIds, `pendingDeletedNodeIds, `flows
      ensures View() == Release(old(View()), old(flows)[i].target).(
                flows := old(flows)[i := Moved(old(flows)[i], answer, Effect(pc, true))])
    {
      var f := flows[i];
      ReleasePendingDelete(f.target);
      flows := flows[i := Flow(f.target, pc, f.trail + [answer], true, f.polls + if f.pc.AwaitPoll? then 1 else 0)];
    }

    method AfterRequest(i: nat, answer: Answer)
      requires Valid() && i < |flows| && (flows[i].pc.AwaitCsrf? || flows[i].pc.AwaitDelete?)
      modifies this
      ensures View() == Apply(old(View()), Resume(i, answer))
    {
      if flows[i].pc.AwaitCsrf? {
        if answer.Token? {
          MoveOn(i, answer, AwaitDelete);
        } else if answer.Refused? || answer.Threw? {
          GiveUp(i, answer, AwaitCaughtReload);
        }
      } else {
        if answer.Accepted? {
          CloseModal();
          MoveOn(i, answer, AwaitAcceptedReload(answer.hasCommand));
        } else if answer.Refused? {
          GiveUp(i, answer, AwaitRefusedReload);
        } else if answer.Threw? {
          GiveUp(i, answer, AwaitCaughtReload);
        }
      }
    }

    /** Inside a list reload. An exception out of the reload after the answer is caught like one before it. */
    method AfterReload(i: nat, answer: Answer)
      requires Valid() && i < |flows|
      requires var pc := flows[i].pc;
               pc.AwaitRefusedReload? || pc.AwaitAcceptedReload? || pc.AwaitCaughtReload? || pc.AwaitLastReload?
      modifies this
      ensures View() == Apply(old(View()), Resume(i, answer))
    {
      var pc := flows[i].pc;
      if answer.Listed? {
        LoadList(answer.list);
        MoveOn(i, answer, pc);
      } else if answer.Finished? {
        MoveOn(i, answer, if pc.AwaitAcceptedReload? && pc.hasCommand then AwaitPoll(0) else Done);
      } else if answer.Threw? {
        if pc.AwaitRefusedReload? || pc.AwaitAcceptedReload? {
          GiveUp(i, answer, AwaitCaughtReload);
        } else {
          MoveOn(i, answer, Done);
        }
      }
    }

    method AfterPoll(i: nat, answer: Answer)
      requires Valid() && i < |flows| && flows[i].pc.AwaitPoll?
      modifies this
      ensures View() == Apply(old(View()), Resume(i, answer))
    {
      var next := if flows[i].pc.n + 1 < MAX_POLLS then AwaitPoll(flows[i].pc.n + 1) else AwaitLastReload;
      if answer.Status? {
        if answer.status in CLEANUP_TERMINAL {
          if answer.status != "succeeded" {
            GiveUp(i, answer, AwaitLastReload);
          } else {
            MoveOn(i, answer, AwaitLastReload);
          }
        } else {
          MoveOn(i, answer, next);
        }
      } else if answer.Refused? {
        MoveOn(i, answer, next);
      } else if answer.Threw? {
        MoveOn(i, answer, Done);
      }
    }

    /** The await of delete `i` resumes with `answer`. A target stays pending unless this delete is its own and
        gives up. */
    method ResumeDelete(i: nat, answer: Answer)
      requires Valid() && i < |flows|
      modifies this
      ensures Valid() && View() == Apply(old(View()), Resume(i, answer))
      ensures forall t :: IsPending(View(), t) <==>
                old(IsPending(View(), t)) && !(old(flows[i].target) == t && GivesUp(old(flows[i].pc), answer))
      ensures forall u :: Deletable(kind, u) ==> (Has(shown, u) <==> ShowsNext(old(View()), Resume(i, answer), u))
    {
      ghost var before := View();
      ApplyKeepsHidden(before, Resume(i, answer));
      forall t ensures IsPending(Apply(before, Resume(i, answer)), t) <==>
                         IsPending(before, t) && !GivenUp(before, Resume(i, answer), t) {
        PendingChangesExactly(before, Resume(i, answer), t);
      }
      forall u | Deletable(kind, u)
        ensures Has(Apply(before, Resume(i, answer)).shown, u) <==> ShowsNext(before, Resume(i, answer), u)
      {
        ApplyShows(before, Resume(i, answer), u);
      }
      match flows[i].pc
      case AwaitCsrf | AwaitDelete => AfterRequest(i, answer);
      case AwaitPoll(_) => AfterPoll(i, answer);
      case Done =>
      case _ => AfterReload(i, answer);
    }

    /** `refreshWhenCleanupCommandCompletes` with nothing in between: `read(k)` answers poll `k`, and `last` is
        the reload after the polls. It polls up to the first poll that ends the wait, and thirty times at most;
        only a command that ended otherwise than succeeded releases the target. */
    method RefreshWhenCleanupCommandCompletes(hasCommand: bool, t: Target, read: nat -> Poll, last: Reload)
      returns (polls: nat)
      requires Valid()
      modifies this
      ensures Valid() && polls <= 30 && (!hasCommand ==> polls == 0)
      ensures forall k :: 0 <= k < polls - 1 ==> !Ends(read(k))
      ensures hasCommand && polls < MAX_POLLS ==> polls > 0 && Ends(read(polls - 1))
      ensures View() ==
              if polls == 0 || read(polls - 1).Lost? then old(View())
              else Loaded(if CleanupFailed(read, polls) then Release(old(View()), t) else old(View()), last)
    {
      if !hasCommand {
        return 0;
      }
      polls := 0;
      for attempt := 0 to MAX_POLLS
        invariant polls == attempt && View() == old(View())
        invariant forall k :: 0 <= k < attempt ==> !Ends(read(k))
      {
        polls := polls + 1;
        var result := read(attempt);
        if result.Lost? {
          return;
        }
        if result.Seen? && result.status in CLEANUP_TERMINAL {
          if result.status != "succeeded" {
            ReleasePendingDelete(t);
          }
          TryLoad(last);
          return;
        }
      }
      TryLoad(last);
    }

    method TryLoad(reload: Reload)
      requires Valid()
      modifies `shown
      ensures Valid() && View() == Loaded(old(View()), reload)
    {
      if reload.list.Some? {
        LoadList(reload.list.value);
      }
    }

    method ReleaseAndLoad(t: Target, reload: Reload)
      requires Valid()
      modifies `pendingDeletedIds, `pendingDeletedNodeIds, `shown
      ensures Valid() && !IsPending(View(), t)
    {
      ReleasePendingDelete(t);
      TryLoad(reload);
    }

    /** The cleanup command ended otherwise than succeeded. */
    static predicate CleanupFailed(read: nat -> Poll, polls: nat) {
      polls > 0 && Ends(read(polls - 1)) && read(polls - 1).Seen? && read(polls - 1) != Seen("succeeded")
    }

    /** After an accepted delete: the dialog closes, the list is read again, and the cleanup polls follow unless
        that reload threw. */
    method FinishTaken(t: Target, hasCommand: bool, first: Reload, caught: Reload, read: nat -> Poll, last: Reload)
      returns (polls: nat)
      requires Valid() && IsPending(View(), t)
      modifies this
      ensures Valid() && polls <= MAX_POLLS && (polls > 0 ==> hasCommand && !first.raised)
      ensures forall k :: 0 <= k < polls - 1 ==> !Ends(read(k))
      ensures IsPending(View(), t) <==> !first.raised && !CleanupFailed(read, polls)
      ensures selected == None
    {
      polls := 0;
      CloseModal();
      TryLoad(first);
      if first.raised {
        ReleaseAndLoad(t, caught);
      } else {
        polls := RefreshWhenCleanupCommandCompletes(hasCommand, t, read, last);
      }
    }

    /** The submit-delete handlers run to their end with nothing in between: `first` is the reload after the
        answer, `caught` the one after an exception, and the cleanup polls follow. The target stays hidden
        exactly when the delete was taken, its reload did not throw, and the cleanup did not fail. */
    method SubmitDeleteToEnd(t: Target, csrf: bool, reply: Reply, first: Reload, caught: Reload, read: nat -> Poll,
                             last: Reload)
      returns (polls: nat)
      requires Valid() && Deletable(kind, t)
      modifies this
      ensures Valid() && polls <= MAX_POLLS
      ensures polls > 0 ==> csrf && reply == Taken(true) && !first.raised
      ensures forall k :: 0 <= k < polls - 1 ==> !Ends(read(k))
      ensures IsPending(View(), t) <==> csrf && reply.Taken? && !first.raised && !CleanupFailed(read, polls)
      ensures selected == if csrf && reply.Taken? then None else old(selected)
    {
      polls := 0;
      MarkPendingDelete(t);
      if !csrf || reply.ReplyRaised? {
        ReleaseAndLoad(t, caught);
      } else if reply.NotTaken? {
        ReleaseAndLoad(t, first);
        if first.raised {
          ReleaseAndLoad(t, caught);
        }
      } else {
        polls := FinishTaken(t, reply.hasCommand, first, caught, read, last);
      }
    }
  }
}
