/** Runs of the direct-node modal on success answers that lack data. A ready plan without its list of blocked
    reasons is held at the first step. After a plan success without data a create is sent with a confirm text older
    than the last edit. After a create success without data a second create is accepted. */
module DirectNodeWitness {
  import opened Text
  import opened DirectNode
  import opened DirectNodeTheorems
  import Ports

  const SERVER: Server := Server("a", "landing", true, "active")
  const BARE_PLAN: Plan := Plan("a", 28917, true, None)
  const KEYS: seq<Confirmation> :=
    [CloudSecurityGroup, CloudFirewall, ServerFirewall, RealListener, NoCloudFirewallChange, NoCutover, RollbackOnly,
     NoExistingXrayConflict]

  /** Nothing is asked yet, and the form holds `c`. */
  predicate Filling(s: State, c: Config) {
    && s.mounted && s.servers == [SERVER] && s.plan.None? && !s.created && !s.submitting
    && s.step == 0 && s.flights == []
    && s.config == c && s.exactConfirm == ""
  }

  lemma OneServerOnline(s: State)
    requires s.servers == [SERVER]
    ensures OnlineServers(s) == [SERVER] && SelectedServer(s).Some?
  {
    assert SERVER in OnlineServers(s);
  }

  function With(c: Config, more: set<Confirmation>): Config {
    c.(confirmed := c.confirmed + more)
  }

  lemma TickOne(s: State, c: Config, key: Confirmation)
    requires Filling(s, c)
    ensures Filling(Apply(s, Change(EditConfirmation(key, true))), With(c, {key}))
  {
    OneServerOnline(s);
    assert CanEdit(s);
  }

  lemma RunSnoc(events: seq<Event>, e: Event)
    ensures Run([SERVER], events + [e]) == Apply(Run([SERVER], events), e)
  {
    assert (events + [e])[..|events|] == events;
  }

  lemma TickNext(events: seq<Event>, c: Config, key: Confirmation)
    requires Filling(Run([SERVER], events), c)
    ensures Filling(Run([SERVER], events + [Change(EditConfirmation(key, true))]), With(c, {key}))
  {
    RunSnoc(events, Change(EditConfirmation(key, true)));
    TickOne(Run([SERVER], events), c, key);
  }

  function SetOf(keys: seq<Confirmation>): set<Confirmation> {
    set k | k in keys
  }

  function TickEvents(keys: seq<Confirmation>): seq<Event> {
    if keys == [] then [] else TickEvents(keys[..|keys| - 1]) + [Change(EditConfirmation(keys[|keys| - 1], true))]
  }

  lemma WithOneMore(c: Config, keys: seq<Confirmation>)
    requires keys != []
    ensures var n := |keys| - 1; With(With(c, SetOf(keys[..n])), {keys[n]}) == With(c, SetOf(keys))
  {
    var n := |keys| - 1;
    assert keys == keys[..n] + [keys[n]];
    assert SetOf(keys) == SetOf(keys[..n]) + {keys[n]};
    assert (c.confirmed + SetOf(keys[..n])) + {keys[n]} == c.confirmed + SetOf(keys);
  }

  lemma WithNothing(c: Config)
    ensures With(c, SetOf([])) == c
  {
    assert c.confirmed + SetOf([]) == c.confirmed;
  }

  lemma {:induction false} TickAll(keys: seq<Confirmation>, c: Config)
    requires Filling(Run([SERVER], []), c)
    ensures Filling(Run([SERVER], TickEvents(keys)), With(c, SetOf(keys)))
  {
    if keys == [] {
      WithNothing(c);
    } else {
      var n := |keys| - 1;
      TickAll(keys[..n], c);
      TickNext(TickEvents(keys[..n]), With(c, SetOf(keys[..n])), keys[n]);
      WithOneMore(c, keys);
    }
  }

  lemma DefaultPortIsAccepted()
    ensures Ports.ValidateDirectNodePort("28917") == None
  {
    DefaultPortIsPrinted();
    Ports.PrintedPortReadsBack(28917);
    Ports.DirectNodeCheckIsUnreservedTransitReader("28917");
  }

  lemma DefaultPortIsPrinted()
    ensures Ports.Decimal(28917) == "28917"
  {
    assert Ports.Decimal(2) == "2";
    assert Ports.Decimal(28) == "28";
    assert Ports.Decimal(289) == "289";
    assert Ports.Decimal(2891) == "2891";
  }

  lemma DefaultTextsArePresent()
    ensures !Blank("www.cloudflare.com") && !Blank("www.cloudflare.com:443") && !Blank("chrome")
  {
    TrimFixesTight("www.cloudflare.com");
    TrimFixesTight("www.cloudflare.com:443");
    TrimFixesTight("chrome");
  }

  const DEFAULT: Config := Config("a", "", "28917", "www.cloudflare.com", "www.cloudflare.com:443", "chrome", {})

  lemma MountIsFilling()
    ensures Filling(Run([SERVER], []), DEFAULT)
  {
  }

  lemma DefaultConfigIsReady(more: set<Confirmation>)
    requires ALL_CONFIRMATIONS <= more
    ensures ConfigReady(With(DEFAULT, more))
  {
    DefaultPortIsAccepted();
    DefaultTextsArePresent();
  }

  /** The plan request is on its way. */
  predicate Asking(s: State, pc: Pc) {
    && s.mounted && s.plan.None? && !s.created && s.step == 0 && |s.flights| == 1
    && s.flights[0].kind.PlanFlight? && s.flights[0].pc == pc
  }

  lemma Asks(s: State, c: Config)
    requires Filling(s, c) && ConfigReady(c)
    ensures Asking(Apply(s, PlanClick), AwaitCsrf)
  {
    OneServerOnline(s);
  }

  lemma Sends(s: State)
    requires Asking(s, AwaitCsrf)
    ensures Asking(Apply(s, Resume(0, Token)), AwaitAnswer)
  {
  }

  lemma GoesOffline(s: State)
    requires Asking(s, AwaitAnswer)
    ensures var o := Apply(s, NewServers([])); Asking(o, AwaitAnswer) && OnlineServers(o) == []
  {
  }

  lemma GetsBarePlan(s: State)
    requires Asking(s, AwaitAnswer) && OnlineServers(s) == []
    ensures var o := Apply(s, Resume(0, PlanIs(BARE_PLAN))); o.mounted && !StepFits(o)
  {
    StepFitsNextIff(s, Resume(0, PlanIs(BARE_PLAN)));
  }

  lemma TickedFormIsReady()
    ensures ConfigReady(With(DEFAULT, SetOf(KEYS)))
  {
    assert forall k :: k in ALL_CONFIRMATIONS ==> k in KEYS;
    DefaultConfigIsReady(SetOf(KEYS));
  }

  lemma AskWhenReady(filled: seq<Event>, c: Config)
    requires Filling(Run([SERVER], filled), c) && ConfigReady(c)
    ensures Asking(Run([SERVER], filled + [PlanClick]), AwaitCsrf)
  {
    Asks(Run([SERVER], filled), c);
    RunSnoc(filled, PlanClick);
  }

  lemma PlanIsAsked() returns (events: seq<Event>)
    ensures Asking(Run([SERVER], events), AwaitCsrf)
  {
    MountIsFilling();
    TickAll(KEYS, DEFAULT);
    TickedFormIsReady();
    AskWhenReady(TickEvents(KEYS), With(DEFAULT, SetOf(KEYS)));
    events := TickEvents(KEYS) + [PlanClick];
  }

  lemma BarePlanArrives(asked: seq<Event>) returns (events: seq<Event>)
    requires Asking(Run([SERVER], asked), AwaitCsrf)
    ensures Run([SERVER], events).mounted && !StepFits(Run([SERVER], events))
  {
    Sends(Run([SERVER], asked));
    RunSnoc(asked, Resume(0, Token));
    events := asked + [Resume(0, Token)];
    GoesOffline(Run([SERVER], events));
    RunSnoc(events, NewServers([]));
    events := events + [NewServers([])];
    GetsBarePlan(Run([SERVER], events));
    RunSnoc(events, Resume(0, PlanIs(BARE_PLAN)));
    events := events + [Resume(0, PlanIs(BARE_PLAN))];
  }

  /** There is a run whose mounted modal shows a step that does not fit the plan it holds. */
  lemma StepMayNotFit()
    ensures exists events :: Run([SERVER], events).mounted && !StepFits(Run([SERVER], events))
  {
    var events := PlanIsAsked();
    events := BarePlanArrives(events);
    assert Run([SERVER], events).mounted && !StepFits(Run([SERVER], events));
  }

  // ---------------------------------------------------------------- rounds of requests

  const GOOD_PLAN: Plan := Plan("a", 28917, true, Some(0))

  /** Nothing is on its way: the form holds `c`, the results are `plan` and no create, the text is `text`, and
      `n` handlers have run. */
  predicate Resting(s: State, c: Config, plan: Option<Plan>, text: string, n: nat) {
    && s.mounted && s.servers == [SERVER] && s.config == c && s.plan == plan && !s.created && s.exactConfirm == text
    && !s.submitting && |s.flights| == n && s.times.editedAt < s.now && s.times.typedAt < s.now
  }

  /** Handler `n` is on its way. */
  predicate Busy(s: State, c: Config, plan: Option<Plan>, text: string, n: nat, creating: bool, pc: Pc) {
    && s.mounted && s.servers == [SERVER] && s.config == c && s.plan == plan && s.exactConfirm == text
    && s.submitting && |s.flights| == n + 1 && s.flights[n].kind.CreateFlight? == creating && s.flights[n].pc == pc
    && s.times.editedAt < s.now && s.times.typedAt < s.now
  }

  lemma PlanStarts(s: State, c: Config, plan: Option<Plan>, text: string, n: nat)
    requires Resting(s, c, plan, text, n) && ConfigReady(c) && (plan.Some? ==> plan.value.reasons.Some?)
    ensures var o := Apply(s, PlanClick);
      Busy(o, c, plan, text, n, false, AwaitCsrf) && !o.created && o.times == s.times && o.log == s.log
  {
    OneServerOnline(s);
    ClickStarts(s, c, plan, text, n, PlanFlight);
    PlanClickApplied(s);
  }

  /** A started handler is on its way, and what the modal shows stays on screen. */
  lemma ClickStarts(s: State, c: Config, plan: Option<Plan>, text: string, n: nat, kind: Kind)
    requires Resting(s, c, plan, text, n) && SelectedServer(s).Some? && ConfigReady(c)
    requires plan.Some? ==> plan.value.reasons.Some?
    ensures var o := Rendered(Started(s, kind).(now := s.now + 1));
      && Busy(o, c, plan, text, n, kind.CreateFlight?, AwaitCsrf) && !o.created && o.times == s.times
      && o.log == s.log && o.flights[n].times == s.times
  {
  }

  lemma PlanClickApplied(s: State)
    requires s.mounted && CanRequestPlan(s)
    ensures Apply(s, PlanClick) == Rendered(Started(s, PlanFlight).(now := s.now + 1))
  {
  }

  lemma CreateClickApplied(s: State)
    requires s.mounted && CanCreate(s) && s.plan.value.reasons.Some?
    ensures Apply(s, CreateClick)
            == Rendered(Started(s, CreateFlight(s.owner, s.plan.value, s.exactConfirm)).(now := s.now + 1))
  {
  }

  lemma TokenComes(s: State, c: Config, plan: Option<Plan>, text: string, n: nat, creating: bool)
    requires Busy(s, c, plan, text, n, creating, AwaitCsrf) && !s.created && (plan.Some? ==> plan.value.reasons.Some?)
    ensures var o := Apply(s, Resume(n, Token));
      && Busy(o, c, plan, text, n, creating, AwaitAnswer) && !o.created && o.times == s.times
      && o.log == s.log + [Asked(n)] && o.flights[n].kind == s.flights[n].kind
      && o.flights[n].times == s.flights[n].times
  {
  }

  lemma PlanComes(s: State, c: Config, plan: Option<Plan>, text: string, n: nat)
    requires Busy(s, c, plan, text, n, false, AwaitAnswer)
    ensures var o := Apply(s, Resume(n, PlanIs(GOOD_PLAN)));
      Resting(o, c, Some(GOOD_PLAN), text, n + 1) && o.times == s.times && o.log == s.log
  {
  }

  lemma NothingComes(s: State, c: Config, plan: Option<Plan>, text: string, n: nat)
    requires Busy(s, c, plan, text, n, false, AwaitAnswer)
    ensures var o := Apply(s, Resume(n, NoPlan));
      && Resting(o, c, None, text, n + 1)
      && o.times.editedAt == s.times.editedAt && o.times.typedAt == s.times.typedAt
  {
  }

  lemma TextIsTyped(s: State, c: Config, plan: Plan, text: string, n: nat)
    requires Resting(s, c, Some(plan), "", n) && plan.ready && plan.reasons == Some(0)
    ensures Resting(Apply(s, Type(text)), c, Some(plan), text, n)
  {
    OneServerOnline(s);
    assert CanType(s);
  }

  /** With no plan held, a change of the form keeps the text. */
  lemma FormIsEdited(s: State, c: Config, text: string, n: nat)
    requires Resting(s, c, None, text, n)
    ensures var o := Apply(s, Change(EditDest("b")));
      Resting(o, c.(dest := "b"), None, text, n) && o.times.editedAt > o.times.typedAt
  {
    OneServerOnline(s);
    assert CanEdit(s);
  }

  lemma CreateStarts(s: State, c: Config, n: nat)
    requires Resting(s, c, Some(GOOD_PLAN), CONFIRM_TEXT, n) && ConfigReady(c) && Ports.NumberOf(c.port) == Some(28917)
    ensures var o := Apply(s, CreateClick);
      && Busy(o, c, Some(GOOD_PLAN), CONFIRM_TEXT, n, true, AwaitCsrf) && !o.created && o.log == s.log
      && o.flights[n].times == s.times
  {
    OneServerOnline(s);
    ServerIsSelected(s);
    GoodPlanMayBeCreated(s, c, n);
    ClickStarts(s, c, Some(GOOD_PLAN), CONFIRM_TEXT, n, CreateFlight(s.owner, GOOD_PLAN, CONFIRM_TEXT));
    CreateClickApplied(s);
  }

  lemma GoodPlanMayBeCreated(s: State, c: Config, n: nat)
    requires Resting(s, c, Some(GOOD_PLAN), CONFIRM_TEXT, n) && ConfigReady(c) && Ports.NumberOf(c.port) == Some(28917)
    requires SelectedServer(s) == Some(SERVER)
    ensures CanCreate(s)
  {
  }

  lemma ServerIsSelected(s: State)
    requires OnlineServers(s) == [SERVER]
    ensures SelectedServer(s) == Some(SERVER)
  {
    assert SelectedServer(s).value in [SERVER];
  }

  /** A plan round that brings a plan. */
  lemma PlanRound(events: seq<Event>, c: Config, plan: Option<Plan>, text: string, n: nat) returns (more: seq<Event>)
    requires Resting(Run([SERVER], events), c, plan, text, n) && ConfigReady(c)
    requires plan.Some? ==> plan.value.reasons.Some?
    ensures Resting(Run([SERVER], more), c, Some(GOOD_PLAN), text, n + 1)
    ensures Run([SERVER], more).times == Run([SERVER], events).times
  {
    PlanStarts(Run([SERVER], events), c, plan, text, n);
    more := Ran(events, PlanClick);
    TokenComes(Run([SERVER], more), c, plan, text, n, false);
    more := Ran(more, Resume(n, Token));
    PlanComes(Run([SERVER], more), c, plan, text, n);
    more := Ran(more, Resume(n, PlanIs(GOOD_PLAN)));
  }

  /** A plan round answered with success and no data. */
  lemma EmptyRound(events: seq<Event>, c: Config, plan: Option<Plan>, text: string, n: nat) returns (more: seq<Event>)
    requires Resting(Run([SERVER], events), c, plan, text, n) && ConfigReady(c)
    requires plan.Some? ==> plan.value.reasons.Some?
    ensures Resting(Run([SERVER], more), c, None, text, n + 1)
  {
    PlanStarts(Run([SERVER], events), c, plan, text, n);
    more := Ran(events, PlanClick);
    TokenComes(Run([SERVER], more), c, plan, text, n, false);
    more := Ran(more, Resume(n, Token));
    NothingComes(Run([SERVER], more), c, plan, text, n);
    more := Ran(more, Resume(n, NoPlan));
  }

  lemma Ran(events: seq<Event>, e: Event) returns (more: seq<Event>)
    ensures Run([SERVER], more) == Apply(Run([SERVER], events), e)
  {
    more := events + [e];
    RunSnoc(events, e);
  }

  function Ready(): Config {
    With(DEFAULT, SetOf(KEYS))
  }

  lemma OtherDestIsReady(c: Config)
    requires ConfigReady(c)
    ensures ConfigReady(c.(dest := "b"))
  {
    TrimFixesTight("b");
  }

  lemma ReadyConfigs()
    ensures ConfigReady(Ready()) && ConfigReady(Ready().(dest := "b"))
    ensures Ports.NumberOf(Ready().port) == Some(28917)
  {
    TickedFormIsReady();
    OtherDestIsReady(Ready());
    DefaultPortIsPrinted();
    Ports.PrintedPortReadsBack(28917);
  }

  lemma FilledIsResting(s: State, c: Config)
    requires Filling(s, c) && s.times.editedAt < s.now && s.times.typedAt < s.now
    ensures Resting(s, c, None, "", 0)
  {
  }

  lemma FormIsFilled()
    ensures Resting(Run([SERVER], TickEvents(KEYS)), Ready(), None, "", 0)
  {
    MountIsFilling();
    TickAll(KEYS, DEFAULT);
    RunKeeps([SERVER], TickEvents(KEYS));
    FilledIsResting(Run([SERVER], TickEvents(KEYS)), Ready());
  }

  lemma TypesText(events: seq<Event>, c: Config, n: nat) returns (more: seq<Event>)
    requires Resting(Run([SERVER], events), c, Some(GOOD_PLAN), "", n)
    ensures Resting(Run([SERVER], more), c, Some(GOOD_PLAN), CONFIRM_TEXT, n)
  {
    TextIsTyped(Run([SERVER], events), c, GOOD_PLAN, CONFIRM_TEXT, n);
    more := Ran(events, Type(CONFIRM_TEXT));
  }

  /** From a filled form to a good plan with the confirm text typed. */
  lemma PlansAndTypes(filled: seq<Event>, c: Config) returns (events: seq<Event>)
    requires Resting(Run([SERVER], filled), c, None, "", 0) && ConfigReady(c)
    ensures Resting(Run([SERVER], events), c, Some(GOOD_PLAN), CONFIRM_TEXT, 1)
  {
    events := PlanRound(filled, c, None, "", 0);
    events := TypesText(events, c, 1);
  }

  lemma TextTyped() returns (events: seq<Event>)
    ensures Resting(Run([SERVER], events), Ready(), Some(GOOD_PLAN), CONFIRM_TEXT, 1)
  {
    ReadyConfigs();
    FormIsFilled();
    events := PlansAndTypes(TickEvents(KEYS), Ready());
  }

  /** Create handler `i` has asked with a text older than the last edit before its click. */
  predicate AskedWithOldText(s: State, i: nat) {
    && i < |s.flights| && s.flights[i].kind.CreateFlight? && Asked(i) in s.log
    && s.flights[i].times.editedAt > s.flights[i].times.typedAt
  }

  lemma EditsForm(events: seq<Event>, c: Config, text: string, n: nat) returns (more: seq<Event>)
    requires Resting(Run([SERVER], events), c, None, text, n)
    ensures Resting(Run([SERVER], more), c.(dest := "b"), None, text, n)
    ensures Run([SERVER], more).times.editedAt > Run([SERVER], more).times.typedAt
  {
    FormIsEdited(Run([SERVER], events), c, text, n);
    more := Ran(events, Change(EditDest("b")));
  }

  /** From a typed text through an empty plan round, an edit and a new plan. */
  lemma TextGetsOld(typed: seq<Event>, c: Config, n: nat) returns (events: seq<Event>)
    requires Resting(Run([SERVER], typed), c, Some(GOOD_PLAN), CONFIRM_TEXT, n)
    requires ConfigReady(c) && ConfigReady(c.(dest := "b"))
    ensures Resting(Run([SERVER], events), c.(dest := "b"), Some(GOOD_PLAN), CONFIRM_TEXT, n + 2)
    ensures Run([SERVER], events).times.editedAt > Run([SERVER], events).times.typedAt
  {
    events := EmptyRound(typed, c, Some(GOOD_PLAN), CONFIRM_TEXT, n);
    events := EditsForm(events, c, CONFIRM_TEXT, n + 1);
    events := PlanRound(events, c.(dest := "b"), None, CONFIRM_TEXT, n + 1);
  }

  /** There is a run that sends a create whose confirm text is older than an edit. */
  lemma OldTextMayCreate()
    ensures exists events :: AskedWithOldText(Run([SERVER], events), 3)
  {
    var events := TextTyped();
    ReadyConfigs();
    events := TextGetsOld(events, Ready(), 1);
    var c := Ready().(dest := "b");
    CreateStarts(Run([SERVER], events), c, 3);
    events := Ran(events, CreateClick);
    TokenComes(Run([SERVER], events), c, Some(GOOD_PLAN), CONFIRM_TEXT, 3, true);
    events := Ran(events, Resume(3, Token));
    assert AskedWithOldText(Run([SERVER], events), 3);
  }

  /** An accepted create without data, once completed, leaves everything as it was before the click. */
  lemma EmptyCreateEnds(s: State, c: Config, n: nat)
    requires Busy(s, c, Some(GOOD_PLAN), CONFIRM_TEXT, n, true, AwaitAnswer)
    ensures var o := Apply(Apply(s, Resume(n, NoCreated)), Resume(n, Completed));
      Resting(o, c, Some(GOOD_PLAN), CONFIRM_TEXT, n + 1) && o.log == s.log + [Accepted(n, false)]
  {
    var t := Apply(s, Resume(n, NoCreated));
    assert t.flights[n] == s.flights[n].(pc := AwaitCompleted);
  }

  /** From the typed text to the answer of a create. */
  lemma CreateIsAsked(typed: seq<Event>, n: nat) returns (events: seq<Event>)
    requires Resting(Run([SERVER], typed), Ready(), Some(GOOD_PLAN), CONFIRM_TEXT, n)
    ensures Busy(Run([SERVER], events), Ready(), Some(GOOD_PLAN), CONFIRM_TEXT, n, true, AwaitAnswer)
    ensures Run([SERVER], events).log == Run([SERVER], typed).log + [Asked(n)]
  {
    ReadyConfigs();
    CreateStarts(Run([SERVER], typed), Ready(), n);
    events := Ran(typed, CreateClick);
    TokenComes(Run([SERVER], events), Ready(), Some(GOOD_PLAN), CONFIRM_TEXT, n, true);
    events := Ran(events, Resume(n, Token));
  }

  lemma SecondIsAccepted(s: State, c: Config, n: nat)
    requires Busy(s, c, Some(GOOD_PLAN), CONFIRM_TEXT, n, true, AwaitAnswer)
    ensures Apply(s, Resume(n, Created)).log == s.log + [Accepted(n, true)]
  {
  }

  /** There is a run in which two creates are accepted. */
  lemma TwoCreatesMayBeAccepted()
    ensures exists events ::
      Accepted(1, false) in Run([SERVER], events).log && Accepted(2, true) in Run([SERVER], events).log
  {
    var events := TextTyped();
    events := CreateIsAsked(events, 1);
    EmptyCreateEnds(Run([SERVER], events), Ready(), 1);
    events := Ran(events, Resume(1, NoCreated));
    events := Ran(events, Resume(1, Completed));
    events := CreateIsAsked(events, 2);
    SecondIsAccepted(Run([SERVER], events), Ready(), 2);
    events := Ran(events, Resume(2, Created));
    assert Accepted(1, false) in Run([SERVER], events).log && Accepted(2, true) in Run([SERVER], events).log;
  }
}
