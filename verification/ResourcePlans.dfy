/** The two plans the debug panel derives from one list of integrity checks: what to rebuild and what to
    register. Titles, descriptions and step texts are left out; ids and order are kept. */
module ResourcePlans {

  datatype Severity = Success | Warning | Danger

  datatype Check = Check(id: string, passed: bool, severity: Severity)

  datatype Candidate = Candidate(integrityReady: bool, checks: seq<Check>)

  datatype Action = TransitResource | TransitWorker | LandingNode
    | RegenerateDryRun | DryRunNotSucceeded | ReviewBlocking

  datatype Section = TransitResourceDraft | LandingNodeDraft | TransitWorkerPreparation

  /** `Nothing` when the candidate is ready; otherwise register resources or regenerate the dry-run. */
  datatype Stage = Nothing | Register | Regenerate

  datatype RebuildPlan = RebuildPlan(ready: bool, blocking: seq<Check>, actions: seq<Action>, stage: Stage)

  datatype RegistrationPlan = RegistrationPlan(ready: bool, sections: seq<Section>, stage: Stage)

  const RESOURCE_CHECKS: set<string> :=
    {"transit_resource_record_exists", "transit_resource_not_deleted", "transit_resource_status_supported"}
  const WORKER_CHECKS: set<string> :=
    {"transit_worker_record_exists", "transit_worker_online", "transit_worker_role_is_transit",
     "transit_worker_interface_detected"}
  const NODE_CHECKS: set<string> :=
    {"landing_node_record_exists", "landing_node_not_deleted", "landing_node_active", "landing_node_has_vps_ip",
     "landing_node_xray_port_present"}
  const TARGET_CHECKS: set<string> :=
    {"candidate_landing_host_matches_node_vps_ip", "candidate_landing_port_matches_node_xray_port"}
  const STATUS_CHECKS: set<string> := {"candidate_status_succeeded"}

  predicate Blocks(c: Check) {
    !c.passed && c.severity == Danger
  }

  /** The failed danger checks, in order. */
  function Blocking(checks: seq<Check>): (r: seq<Check>)
    ensures forall c :: c in r <==> c in checks && Blocks(c)
  {
    if checks == [] then []
    else
      var n := |checks| - 1;
      assert checks == checks[..n] + [checks[n]];
      Blocking(checks[..n]) + (if Blocks(checks[n]) then [checks[n]] else [])
  }

  /** The failed danger checks are listed in the order of the checks. */
  lemma BlockingInOrder(checks: seq<Check>, c: Check)
    ensures Blocking(checks + [c]) == Blocking(checks) + if !c.passed && c.severity.Danger? then [c] else []
  {
    assert (checks + [c])[..|checks|] == checks;
  }

  predicate HasAny(checks: seq<Check>, ids: set<string>) {
    exists i :: 0 <= i < |checks| && checks[i].id in ids
  }

  /** A failed danger check of the candidate belongs to a group. */
  predicate Fails(c: Candidate, ids: set<string>) {
    exists i :: 0 <= i < |c.checks| && Blocks(c.checks[i]) && c.checks[i].id in ids
  }

  function PushIf<T(!new)>(xs: seq<T>, condition: bool, x: T): (r: seq<T>)
    ensures forall y :: y in r <==> y in xs || (condition && y == x)
  {
    if condition then xs + [x] else xs
  }

  function GroupActions(blocking: seq<Check>): seq<Action> {
    var resource := PushIf([], HasAny(blocking, RESOURCE_CHECKS), TransitResource);
    var worker := PushIf(resource, HasAny(blocking, WORKER_CHECKS), TransitWorker);
    var node := PushIf(worker, HasAny(blocking, NODE_CHECKS), LandingNode);
    var target := PushIf(node, HasAny(blocking, TARGET_CHECKS), RegenerateDryRun);
    PushIf(target, HasAny(blocking, STATUS_CHECKS), DryRunNotSucceeded)
  }

  function Actions(blocking: seq<Check>): seq<Action> {
    var grouped := GroupActions(blocking);
    PushIf(grouped, grouped == [] && blocking != [], ReviewBlocking)
  }

  predicate NeedsResourceOrNode(actions: seq<Action>) {
    TransitResource in actions || TransitWorker in actions || LandingNode in actions
  }

  function Rebuild(c: Candidate): RebuildPlan {
    var blocking := Blocking(c.checks);
    var actions := Actions(blocking);
    RebuildPlan(c.integrityReady, blocking, actions,
                if c.integrityReady then Nothing else if NeedsResourceOrNode(actions) then Register else Regenerate)
  }

  function Sections(rebuild: RebuildPlan): seq<Section> {
    var resource := PushIf([], TransitResource in rebuild.actions || HasAny(rebuild.blocking, RESOURCE_CHECKS),
                           TransitResourceDraft);
    var node := PushIf(resource, LandingNode in rebuild.actions || HasAny(rebuild.blocking, NODE_CHECKS),
                       LandingNodeDraft);
    PushIf(node, TransitWorker in rebuild.actions, TransitWorkerPreparation)
  }

  function Registration(c: Candidate, rebuild: RebuildPlan): RegistrationPlan {
    var sections := Sections(rebuild);
    RegistrationPlan(c.integrityReady, sections,
                     if c.integrityReady then Nothing
                     else if TransitResourceDraft in sections || LandingNodeDraft in sections then Register
                     else Regenerate)
  }

  /** The place of an action in the fixed order of the plan. */
  function ActionPlace(a: Action): nat {
    match a
    case TransitResource => 0
    case TransitWorker => 1
    case LandingNode => 2
    case RegenerateDryRun => 3
    case DryRunNotSucceeded => 4
    case ReviewBlocking => 5
  }

  function SectionPlace(x: Section): nat {
    match x
    case TransitResourceDraft => 0
    case LandingNodeDraft => 1
    case TransitWorkerPreparation => 2
  }

  lemma BlockingHasAny(c: Candidate, ids: set<string>)
    ensures HasAny(Blocking(c.checks), ids) <==> Fails(c, ids)
  {
    var b := Blocking(c.checks);
    if i :| 0 <= i < |b| && b[i].id in ids {
      assert b[i] in b;
      var j :| 0 <= j < |c.checks| && c.checks[j] == b[i];
    }
    if j :| 0 <= j < |c.checks| && Blocks(c.checks[j]) && c.checks[j].id in ids {
      assert c.checks[j] in b;
      var i :| 0 <= i < |b| && b[i] == c.checks[j];
    }
  }

  lemma NoneBlocking(checks: seq<Check>)
    ensures Blocking(checks) == [] <==> forall i :: 0 <= i < |checks| ==> !Blocks(checks[i])
  {
    if Blocking(checks) != [] {
      assert Blocking(checks)[0] in Blocking(checks);
    } else {
      forall i | 0 <= i < |checks| ensures !Blocks(checks[i]) { assert checks[i] in checks; }
    }
  }

  lemma NoBlockingNoActions(blocking: seq<Check>)
    ensures Actions(blocking) == [] <==> blocking == []
  {
    if Actions(blocking) != [] {
      assert Actions(blocking)[0] in Actions(blocking);
    }
  }

  /** Each action at most once, in the fixed order. */
  predicate ActionsInOrder(actions: seq<Action>) {
    forall i, j :: 0 <= i < j < |actions| ==> ActionPlace(actions[i]) < ActionPlace(actions[j])
  }

  predicate SectionsInOrder(sections: seq<Section>) {
    forall i, j :: 0 <= i < j < |sections| ==> SectionPlace(sections[i]) < SectionPlace(sections[j])
  }

  lemma PushKeepsOrder(actions: seq<Action>, condition: bool, a: Action)
    requires ActionsInOrder(actions) && forall x :: x in actions ==> ActionPlace(x) < ActionPlace(a)
    ensures ActionsInOrder(PushIf(actions, condition, a))
  {
  }

  lemma ActionsAreInOrder(blocking: seq<Check>)
    ensures ActionsInOrder(Actions(blocking))
  {
    var resource := PushIf([], HasAny(blocking, RESOURCE_CHECKS), TransitResource);
    var worker := PushIf(resource, HasAny(blocking, WORKER_CHECKS), TransitWorker);
    PushKeepsOrder(resource, HasAny(blocking, WORKER_CHECKS), TransitWorker);
    var node := PushIf(worker, HasAny(blocking, NODE_CHECKS), LandingNode);
    PushKeepsOrder(worker, HasAny(blocking, NODE_CHECKS), LandingNode);
    var target := PushIf(node, HasAny(blocking, TARGET_CHECKS), RegenerateDryRun);
    PushKeepsOrder(node, HasAny(blocking, TARGET_CHECKS), RegenerateDryRun);
    PushKeepsOrder(target, HasAny(blocking, STATUS_CHECKS), DryRunNotSucceeded);
    var grouped := GroupActions(blocking);
    PushKeepsOrder(grouped, grouped == [] && blocking != [], ReviewBlocking);
  }

  /** What a rebuild plan asks for, in terms of the candidate's checks: an action exactly for a group with a
      failed danger check, once and in the fixed order; the review action alone exactly when danger checks
      failed but none of a group; no action exactly when no danger check failed; and the stage that follows. */
  ghost predicate AsksForFailures(c: Candidate, plan: RebuildPlan) {
    && (forall x :: x in plan.blocking <==> x in c.checks && Blocks(x))
    && (TransitResource in plan.actions <==> Fails(c, RESOURCE_CHECKS))
    && (TransitWorker in plan.actions <==> Fails(c, WORKER_CHECKS))
    && (LandingNode in plan.actions <==> Fails(c, NODE_CHECKS))
    && (RegenerateDryRun in plan.actions <==> Fails(c, TARGET_CHECKS))
    && (DryRunNotSucceeded in plan.actions <==> Fails(c, STATUS_CHECKS))
    && (ReviewBlocking in plan.actions <==>
          && (exists i :: 0 <= i < |c.checks| && Blocks(c.checks[i]))
          && !Fails(c, RESOURCE_CHECKS) && !Fails(c, WORKER_CHECKS) && !Fails(c, NODE_CHECKS)
          && !Fails(c, TARGET_CHECKS) && !Fails(c, STATUS_CHECKS))
    && (plan.actions == [] <==> forall i :: 0 <= i < |c.checks| ==> !Blocks(c.checks[i]))
    && ActionsInOrder(plan.actions)
    && plan.ready == c.integrityReady && (plan.stage == Nothing <==> c.integrityReady)
    && (plan.stage == Register <==>
          !c.integrityReady && (Fails(c, RESOURCE_CHECKS) || Fails(c, WORKER_CHECKS) || Fails(c, NODE_CHECKS)))
  }

  lemma RebuildPlanMeaning(c: Candidate)
    ensures AsksForFailures(c, Rebuild(c))
  {
    BlockingHasAny(c, RESOURCE_CHECKS);
    BlockingHasAny(c, WORKER_CHECKS);
    BlockingHasAny(c, NODE_CHECKS);
    BlockingHasAny(c, TARGET_CHECKS);
    BlockingHasAny(c, STATUS_CHECKS);
    NoneBlocking(c.checks);
    NoBlockingNoActions(Blocking(c.checks));
    ActionsAreInOrder(Blocking(c.checks));
  }

  /** The two plans of one candidate agree: a registration section is there exactly when its rebuild action
      is, once and in the fixed order, and the recommended stages differ in kind exactly when the candidate is
      not ready and the worker action stands without the resource and node actions. */
  ghost predicate Agree(c: Candidate, rebuild: RebuildPlan, registration: RegistrationPlan) {
    && (TransitResourceDraft in registration.sections <==> TransitResource in rebuild.actions)
    && (LandingNodeDraft in registration.sections <==> LandingNode in rebuild.actions)
    && (TransitWorkerPreparation in registration.sections <==> TransitWorker in rebuild.actions)
    && SectionsInOrder(registration.sections)
    && registration.ready == rebuild.ready && (registration.stage == Nothing <==> rebuild.stage == Nothing)
    && (rebuild.stage != registration.stage <==>
          && !c.integrityReady && TransitWorker in rebuild.actions
          && TransitResource !in rebuild.actions && LandingNode !in rebuild.actions)
  }

  lemma SectionsAreInOrder(rebuild: RebuildPlan)
    ensures SectionsInOrder(Sections(rebuild))
  {
  }

  /** A rebuild plan asks for a group exactly when its blocking checks have one of the group. */
  lemma GroupAsked(c: Candidate)
    ensures var rebuild := Rebuild(c);
      && (TransitResource in rebuild.actions <==> HasAny(rebuild.blocking, RESOURCE_CHECKS))
      && (LandingNode in rebuild.actions <==> HasAny(rebuild.blocking, NODE_CHECKS))
  {
  }

  lemma PlansAgree(c: Candidate)
    ensures Agree(c, Rebuild(c), Registration(c, Rebuild(c)))
  {
    GroupAsked(c);
    SectionsAreInOrder(Rebuild(c));
  }

  /** `buildHaproxyResourceRebuildPlan` for a chosen candidate: actions are pushed group by group. */
  method BuildRebuildPlan(c: Candidate) returns (plan: RebuildPlan)
    ensures AsksForFailures(c, plan)
    ensures plan == Rebuild(c)
  {
    var blocking := Blocking(c.checks);
    var actions: seq<Action> := [];
    if HasAny(blocking, RESOURCE_CHECKS) {
      actions := actions + [TransitResource];
    }
    if HasAny(blocking, WORKER_CHECKS) {
      actions := actions + [TransitWorker];
    }
    if HasAny(blocking, NODE_CHECKS) {
      actions := actions + [LandingNode];
    }
    if HasAny(blocking, TARGET_CHECKS) {
      actions := actions + [RegenerateDryRun];
    }
    if HasAny(blocking, STATUS_CHECKS) {
      actions := actions + [DryRunNotSucceeded];
    }
    if actions == [] && blocking != [] {
      actions := actions + [ReviewBlocking];
    }
    var stage := if c.integrityReady then Nothing else if NeedsResourceOrNode(actions) then Register else Regenerate;
    plan := RebuildPlan(c.integrityReady, blocking, actions, stage);
    assert plan == Rebuild(c);
    RebuildPlanMeaning(c);
  }

  /** `buildResourceRegistrationPlan` on a rebuild plan, which the panel builds from the same candidate. */
  method BuildRegistrationPlan(c: Candidate, rebuild: RebuildPlan) returns (plan: RegistrationPlan)
    ensures rebuild == Rebuild(c) ==> Agree(c, rebuild, plan)
    ensures plan == Registration(c, rebuild)
  {
    var sections: seq<Section> := [];
    if TransitResource in rebuild.actions || HasAny(rebuild.blocking, RESOURCE_CHECKS) {
      sections := sections + [TransitResourceDraft];
    }
    if LandingNode in rebuild.actions || HasAny(rebuild.blocking, NODE_CHECKS) {
      sections := sections + [LandingNodeDraft];
    }
    if TransitWorker in rebuild.actions {
      sections := sections + [TransitWorkerPreparation];
    }
    var stage := if c.integrityReady then Nothing
                 else if TransitResourceDraft in sections || LandingNodeDraft in sections then Register
                 else Regenerate;
    plan := RegistrationPlan(c.integrityReady, sections, stage);
    assert plan == Registration(c, rebuild);
    PlansAgree(c);
  }
}
