/** The direct-node modal as the component holds it: fields its handlers write one after the other, each
    handler continued after every await. `View` is the machine state and `Valid` the session invariant. Each
    handler makes the writes of its event, and `Dispatch`, which renders after them, keeps the invariant. */
module DirectNodeModal {
  import opened Text
  import opened DirectNode
  import opened DirectNodeTheorems

  lemma FailedResume(s: State, i: nat, answer: Answer)
    requires i < |s.flights| && s.flights[i].pc.AwaitAnswer? && (answer.Threw? || answer.Refused?)
    ensures Resumed(s, i, answer) ==
      s.(flights := s.flights[i := s.flights[i].(pc := Ended)], submitting := s.submitting && !s.mounted)
  {
  }

  lemma PlanResume(s: State, i: nat, plan: Plan)
    requires i < |s.flights| && s.flights[i].pc.AwaitAnswer? && s.flights[i].kind.PlanFlight?
    ensures var t := if s.mounted then Planned(s, i, PlanIs(plan)) else s;
      Resumed(s, i, PlanIs(plan)) ==
        t.(flights := s.flights[i := s.flights[i].(pc := Ended, answer := Some(plan))],
           submitting := s.submitting && !s.mounted)
  {
  }

  lemma NoPlanResume(s: State, i: nat)
    requires i < |s.flights| && s.flights[i].pc.AwaitAnswer? && s.flights[i].kind.PlanFlight?
    ensures var t := if s.mounted then Planned(s, i, NoPlan) else s;
      Resumed(s, i, NoPlan) ==
        t.(flights := s.flights[i := s.flights[i].(pc := Ended)], submitting := s.submitting && !s.mounted)
  {
  }

  lemma CreateResume(s: State, i: nat, answer: Answer)
    requires i < |s.flights| && s.flights[i].pc.AwaitAnswer? && s.flights[i].kind.CreateFlight?
    requires answer.Created? || answer.NoCreated?
    ensures var t := if s.mounted then s.(created := answer.Created?, step := 5) else s;
      Resumed(s, i, answer) ==
        t.(flights := s.flights[i := s.flights[i].(pc := AwaitCompleted)],
           log := s.log + [Accepted(i, answer.Created?)])
  {
  }

  lemma HandledKeepsNow(s: State, e: Event)
    ensures Handled(s, e).now == s.now
  {
  }

  class CreateDirectNodeModal {
    var mounted: bool
    var servers: seq<Server>
    var config: Config
    var planResult: Option<Plan>
    var planOwner: nat
    var createResult: bool
    var exactConfirm: string
    var submitting: bool
    var step: nat
    var flights: seq<Flight>
    var log: seq<Act>
    var now: nat
    var times: Times

    function View(): State
      reads this
    {
      State(mounted, servers, config, planResult, planOwner, createResult, exactConfirm, submitting, step, flights, log,
            now, times)
    }

    ghost predicate Valid()
      reads this
    {
      Inv(View())
    }

    constructor (servers: seq<Server>)
      ensures View() == Init(servers) && Valid()
    {
      var first := Init(servers);
      this.servers, config := servers, first.config;
      mounted, planResult, planOwner, createResult, exactConfirm := true, None, 0, false, "";
      submitting, step, flights, log, now, times := false, 0, [], [], 1, Times(0, 0, 0);
      new;
      RunKeeps(servers, []);
    }

    /** After every event the modal renders what it holds. */
    method Render()
      modifies `mounted, `now
      ensures View() == Rendered(old(View()).(now := old(now) + 1))
    {
      now := now + 1;
      if mounted && planResult.Some? && planResult.value.reasons.None? && OnlineServers(View()) != [] {
        mounted := false;
      }
    }

    method MarkConfigDirty()
      modifies `planResult, `createResult, `exactConfirm, `step
      ensures View() == Dirtied(old(View()))
    {
      if planResult.Some? || createResult {
        planResult := None;
        createResult := false;
        exactConfirm := "";
        step := 1;
      }
    }

    method SetField(edit: Edit)
      modifies `config, `times
      ensures View() == old(View()).(config := Edited(old(config), edit), times := old(times).(editedAt := now))
    {
      config := Edited(config, edit);
      times := times.(editedAt := now);
    }

    /** An enabled input changes its field; a held plan, and the confirm text with it, does not outlive the
        change. */
    method ChangeConfig(edit: Edit)
      modifies this
      ensures View() == Handled(old(View()), Change(edit))
    {
      if CanEdit(View()) {
        SetField(edit);
        MarkConfigDirty();
      }
    }

    /** The effect that moves a selection that is not online to the first online server; it marks nothing
        dirty. */
    method KeepSelectionOnline()
      modifies `config
      ensures View() == Handled(old(View()), Settle)
    {
      if mounted {
        config := config.(serverId := SettledId(View()));
      }
    }

    method TypeConfirm(text: string)
      modifies `exactConfirm, `times
      ensures View() == Handled(old(View()), Type(text))
    {
      if CanType(View()) {
        exactConfirm := text;
        times := Times(times.editedAt, now, 0);
      }
    }

    /** A click on an enabled button: the lock is set and the handler starts with what the render captured. */
    method Start(kind: Kind)
      requires SelectedServer(View()).Some? && ConfigReady(config)
      modifies `submitting, `flights
      ensures View() == Started(old(View()), kind)
    {
      var captured := Captured(View());
      submitting := true;
      flights := flights + [Flight(kind, captured, AwaitCsrf, None, now, times)];
    }

    method HandlePlan()
      modifies `submitting, `flights
      ensures View() == Handled(old(View()), PlanClick)
    {
      if mounted && CanRequestPlan(View()) {
        Start(PlanFlight);
      }
    }

    /** A create that starts repeats a held plan that is ready and unblocked and was requested with the same
        Reality values, with all boxes ticked; the confirm text was typed after the last edit unless one
        followed a plan success without data. */
    method HandleCreate()
      requires Valid()
      modifies `submitting, `flights
      ensures View() == Handled(old(View()), CreateClick)
      ensures flights == old(flights)
              || (|flights| == |old(flights)| + 1 && flights[|old(flights)|].kind.CreateFlight?
                  && CreateJustified(old(flights), flights[|old(flights)|]))
    {
      if mounted && CanCreate(View()) && planResult.value.reasons.Some? {
        var kind := CreateFlight(planOwner, planResult.value, exactConfirm);
        CreateClickJustified(View(), Flight(kind, Captured(View()), AwaitCsrf, None, now, times));
        Start(kind);
      }
    }

    method CloseModal()
      modifies `planResult, `createResult, `exactConfirm, `mounted
      ensures View() == Handled(old(View()), Close)
    {
      if mounted {
        planResult := None;
        createResult := false;
        exactConfirm := "";
        mounted := false;
      }
    }

    // ------------------------------------------------------------ handlers after their awaits

    /** The `finally` of a handler; writes to an unmounted modal are lost. */
    method Finish(i: nat, f: Flight)
      requires i < |flights|
      modifies `flights, `submitting
      ensures flights == old(flights)[i := f.(pc := Ended)] && submitting == (old(submitting) && !mounted)
    {
      flights := flights[i := f.(pc := Ended)];
      if mounted {
        submitting := false;
      }
    }

    method AfterCsrf(i: nat, answer: Answer)
      requires i < |flights| && flights[i].pc.AwaitCsrf?
      modifies this
      ensures View() == Resumed(old(View()), i, answer)
    {
      if answer.Token? {
        log := log + [Asked(i)];
        flights := flights[i := flights[i].(pc := AwaitAnswer)];
      } else if answer.Threw? || answer.Refused? {
        Finish(i, flights[i]);
      } else {
        assert flights[i := flights[i]] == flights;
      }
    }

    /** The plan is written first; its list is read for the step only afterwards. */
    method HoldPlan(i: nat, plan: Plan)
      modifies `planResult, `planOwner, `createResult, `step
      ensures planResult == Some(plan) && planOwner == i && !createResult && step == StepFor(plan, old(step))
    {
      planResult := Some(plan);
      planOwner := i;
      createResult := false;
      if plan.ready {
        if plan.reasons.Some? {
          step := if plan.reasons.value == 0 then 3 else 2;
        }
      } else {
        step := 2;
      }
    }

    /** A success answer without data drops the plan; reading its fields throws before the step is written, and
        the confirm text stays. */
    method LosePlan()
      modifies `planResult, `createResult, `times
      ensures planResult.None? && !createResult
      ensures times == old(times).(lostAt := if old(times).lostAt == 0 then now else old(times).lostAt)
    {
      planResult := None;
      createResult := false;
      if times.lostAt == 0 {
        times := times.(lostAt := now);
      }
    }

    method AfterPlan(i: nat, answer: Answer)
      requires i < |flights| && flights[i].pc.AwaitAnswer? && flights[i].kind.PlanFlight?
      modifies this
      ensures View() == Resumed(old(View()), i, answer)
    {
      if answer.Threw? || answer.Refused? {
        FailedResume(View(), i, answer);
        Finish(i, flights[i]);
      } else if answer.PlanIs? {
        PlanResume(View(), i, answer.plan);
        if mounted {
          HoldPlan(i, answer.plan);
        }
        Finish(i, flights[i].(answer := Some(answer.plan)));
      } else if answer.NoPlan? {
        NoPlanResume(View(), i);
        if mounted {
          LosePlan();
        }
        Finish(i, flights[i]);
      } else {
        assert flights[i := flights[i]] == flights;
      }
    }

    /** The create was accepted. */
    method ShowCreated(i: nat, data: bool)
      requires i < |flights|
      modifies `createResult, `step, `log, `flights
      ensures createResult == (if mounted then data else old(createResult))
      ensures step == (if mounted then 5 else old(step))
      ensures log == old(log) + [Accepted(i, data)]
      ensures flights == old(flights)[i := old(flights)[i].(pc := AwaitCompleted)]
    {
      if mounted {
        createResult := data;
        step := 5;
      }
      log := log + [Accepted(i, data)];
      flights := flights[i := flights[i].(pc := AwaitCompleted)];
    }

    method AfterCreate(i: nat, answer: Answer)
      requires i < |flights| && flights[i].pc.AwaitAnswer? && flights[i].kind.CreateFlight?
      modifies this
      ensures View() == Resumed(old(View()), i, answer)
    {
      if answer.Threw? || answer.Refused? {
        FailedResume(View(), i, answer);
        Finish(i, flights[i]);
      } else if answer.Created? || answer.NoCreated? {
        CreateResume(View(), i, answer);
        ShowCreated(i, answer.Created?);
      } else {
        assert flights[i := flights[i]] == flights;
      }
    }

    method AfterCompleted(i: nat, answer: Answer)
      requires i < |flights| && flights[i].pc.AwaitCompleted?
      modifies this
      ensures View() == Resumed(old(View()), i, answer)
    {
      if answer.Completed? || answer.Threw? {
        Finish(i, flights[i]);
      } else {
        assert flights[i := flights[i]] == flights;
      }
    }

    /** The await of handler run `i` resumes; after an unmount only its requests go on. */
    method ResumeHandler(i: nat, answer: Answer)
      requires i < |flights|
      modifies this
      ensures View() == Resumed(old(View()), i, answer)
    {
      match flights[i].pc
      case AwaitCsrf => AfterCsrf(i, answer);
      case AwaitAnswer =>
        if flights[i].kind.PlanFlight? {
          AfterPlan(i, answer);
        } else {
          AfterCreate(i, answer);
        }
      case AwaitCompleted => AfterCompleted(i, answer);
      case Ended => assert flights[i := flights[i]] == flights;
    }

    method Handle(e: Event)
      requires Valid()
      modifies this
      ensures View() == Handled(old(View()), e)
    {
      match e
      case NewServers(list) => servers := list;
      case Settle => KeepSelectionOnline();
      case Change(edit) => ChangeConfig(edit);
      case Type(text) => TypeConfirm(text);
      case PlanClick => HandlePlan();
      case CreateClick => HandleCreate();
      case Close => CloseModal();
      case Resume(i, answer) =>
        if i < |flights| {
          ResumeHandler(i, answer);
        }
    }

    method HandleAndRender(e: Event)
      requires Valid()
      modifies this
      ensures View() == Apply(old(View()), e)
    {
      HandledKeepsNow(View(), e);
      Handle(e);
      Render();
    }

    /** One event: its handler runs, and the modal renders. */
    method Dispatch(e: Event)
      requires Valid()
      modifies this
      ensures Valid() && View() == Apply(old(View()), e)
    {
      ApplyKeeps(View(), e);
      HandleAndRender(e);
    }
  }
}
