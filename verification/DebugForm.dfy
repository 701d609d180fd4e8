/** The two checkers of the debug panel's readiness form: the error list and the request payload. */
module DebugForm {
  import opened Text
  import opened Ports

  datatype Form = Form(
    dryRunCommandId: string,
    transitResourceId: string,
    landingNodeId: string,
    plannedListenPort: string,
    landingTargetHost: string,
    landingTargetPort: string,
    forwardingMethod: string,
    routeName: string,
    routeDisplayName: string,
    approvalStage: string,
    finalApprovalText: string,
    realExecutionText: string
  )

  datatype Confirmations = Confirmations(
    firewallSecurityGroup: bool,
    cloudFirewall: bool,
    serverFirewall: bool,
    noCutover: bool,
    noNodeShareLinkChange: bool,
    noTransitShareLinkWrite: bool,
    noFullClientLink: bool
  ) {
    predicate All() {
      && firewallSecurityGroup && cloudFirewall && serverFirewall && noCutover
      && noNodeShareLinkChange && noTransitShareLinkWrite && noFullClientLink
    }
  }

  datatype Payload = Payload(
    dryRunCommandId: string,
    transitResourceId: string,
    landingNodeId: string,
    plannedListenPort: int,
    landingTargetHost: string,
    landingTargetPort: int,
    forwardingMethod: string,
    routeName: string,
    routeDisplayName: Option<string>,
    approvalStage: string,
    finalApprovalText: string,
    realExecutionText: string,
    firewallSecurityGroup: bool,
    cloudFirewall: bool,
    serverFirewall: bool,
    noCutover: bool,
    noNodeShareLinkChange: bool,
    noFullClientLink: bool
  )

  /** The fields that must not be blank. */
  datatype Field =
    | DryRunCommandId | TransitResourceId | LandingNodeId | PlannedListenPort | LandingTargetHost
    | LandingTargetPort | RouteName | ApprovalStage | FinalApprovalText | RealExecutionText

  datatype FormError =
    | Missing(field: Field)
    | BadPlannedListenPort
    | BadLandingTargetPort
    | UnsafeRouteName
    | WrongForwardingMethod
    | Unconfirmed

  predicate IsAlphanumeric(c: char) {
    'A' <= c <= 'Z' || 'a' <= c <= 'z' || '0' <= c <= '9'
  }

  /** The whole trimmed text is a letter or digit followed by at most 119 letters, digits, dots,
      underscores or hyphens. */
  predicate IsSafeRouteName(value: string) {
    var t := Trim(value);
    && 1 <= |t| <= 120 && IsAlphanumeric(t[0])
    && forall i :: 1 <= i < |t| ==> IsAlphanumeric(t[i]) || t[i] in "._-"
  }

  /** The required fields in the order they are checked. */
  function RequiredFields(): seq<Field> {
    [DryRunCommandId, TransitResourceId, LandingNodeId, PlannedListenPort, LandingTargetHost,
     LandingTargetPort, RouteName, ApprovalStage, FinalApprovalText, RealExecutionText]
  }

  function TextOf(form: Form, field: Field): string {
    match field
    case DryRunCommandId => form.dryRunCommandId
    case TransitResourceId => form.transitResourceId
    case LandingNodeId => form.landingNodeId
    case PlannedListenPort => form.plannedListenPort
    case LandingTargetHost => form.landingTargetHost
    case LandingTargetPort => form.landingTargetPort
    case RouteName => form.routeName
    case ApprovalStage => form.approvalStage
    case FinalApprovalText => form.finalApprovalText
    case RealExecutionText => form.realExecutionText
  }

  /** An error for each blank field among some fields, in order. */
  function MissingErrors(form: Form, fields: seq<Field>): (r: seq<FormError>)
    ensures r == [] <==> forall f :: f in fields ==> !Blank(TextOf(form, f))
  {
    if fields == [] then []
    else
      var n := |fields| - 1;
      assert fields == fields[..n] + [fields[n]];
      MissingErrors(form, fields[..n]) + (if Blank(TextOf(form, fields[n])) then [Missing(fields[n])] else [])
  }

  function PushIf(errors: seq<FormError>, condition: bool, error: FormError): (r: seq<FormError>)
    ensures r == [] <==> errors == [] && !condition
  {
    if condition then errors + [error] else errors
  }

  function Errors(form: Form, confirmations: Confirmations): seq<FormError> {
    var missing := MissingErrors(form, RequiredFields());
    var planned := PushIf(missing, form.plannedListenPort != "" && ParsePortDebug(form.plannedListenPort).None?,
                          BadPlannedListenPort);
    var target := PushIf(planned, form.landingTargetPort != "" && ParsePortDebug(form.landingTargetPort).None?,
                         BadLandingTargetPort);
    var name := PushIf(target, form.routeName != "" && !IsSafeRouteName(form.routeName), UnsafeRouteName);
    var forwarding := PushIf(name, form.forwardingMethod != "haproxy_tcp", WrongForwardingMethod);
    PushIf(forwarding, !confirmations.All(), Unconfirmed)
  }

  /** The loop of `validateForm` over the required fields. */
  method PushMissing(form: Form) returns (errors: seq<FormError>)
    ensures errors == MissingErrors(form, RequiredFields())
  {
    errors := [];
    var fields := RequiredFields();
    for i := 0 to |fields|
      invariant errors == MissingErrors(form, fields[..i])
    {
      assert fields[..i + 1][..i] == fields[..i];
      if Blank(TextOf(form, fields[i])) {
        errors := errors + [Missing(fields[i])];
      }
    }
    assert fields[..|fields|] == fields;
  }

  /** The checks of `validateForm`, pushed onto a list one by one. */
  method PushErrors(form: Form, confirmations: Confirmations) returns (errors: seq<FormError>)
    ensures errors == Errors(form, confirmations)
  {
    errors := PushMissing(form);
    if form.plannedListenPort != "" && ParsePortDebug(form.plannedListenPort).None? {
      errors := errors + [BadPlannedListenPort];
    }
    if form.landingTargetPort != "" && ParsePortDebug(form.landingTargetPort).None? {
      errors := errors + [BadLandingTargetPort];
    }
    if form.routeName != "" && !IsSafeRouteName(form.routeName) {
      errors := errors + [UnsafeRouteName];
    }
    if form.forwardingMethod != "haproxy_tcp" {
      errors := errors + [WrongForwardingMethod];
    }
    if !confirmations.All() {
      errors := errors + [Unconfirmed];
    }
  }

  /** `validateForm`: each error is listed exactly when its own check fails, once and in order; there is none
      exactly when the payload is built and the forwarding method is the typed one. */
  method ValidateForm(form: Form, confirmations: Confirmations) returns (errors: seq<FormError>)
    ensures errors == Errors(form, confirmations)
    ensures InOrder(errors) && forall e :: e in errors <==> Fails(form, confirmations, e)
    ensures errors == [] <==> BuildPayload(form, confirmations).Some? && form.forwardingMethod == "haproxy_tcp"
  {
    errors := PushErrors(form, confirmations);
    CheckersAgree(form, confirmations);
    ErrorsAreFailedChecks(form, confirmations);
  }

  /** `buildPayloadOrNull`. */
  function BuildPayload(form: Form, confirmations: Confirmations): Option<Payload> {
    var planned := ParsePortDebug(form.plannedListenPort);
    var target := ParsePortDebug(form.landingTargetPort);
    if planned.None? || target.None? then None
    else if
      || Blank(form.dryRunCommandId) || Blank(form.transitResourceId) || Blank(form.landingNodeId)
      || Blank(form.landingTargetHost) || Blank(form.routeName) || Blank(form.approvalStage)
      || Blank(form.finalApprovalText) || Blank(form.realExecutionText)
    then None
    else if !IsSafeRouteName(form.routeName) then None
    else if !confirmations.All() then None
    else Some(Payload(
      Trim(form.dryRunCommandId),
      Trim(form.transitResourceId),
      Trim(form.landingNodeId),
      planned.value,
      Trim(form.landingTargetHost),
      target.value,
      "haproxy_tcp",
      Trim(form.routeName),
      if Blank(form.routeDisplayName) then None else Some(Trim(form.routeDisplayName)),
      Trim(form.approvalStage),
      Trim(form.finalApprovalText),
      Trim(form.realExecutionText),
      confirmations.firewallSecurityGroup,
      confirmations.cloudFirewall,
      confirmations.serverFirewall,
      confirmations.noCutover,
      confirmations.noNodeShareLinkChange,
      confirmations.noFullClientLink))
  }

  /** Every text with a readable port is neither blank nor empty. */
  lemma ReadablePortIsPresent(value: string)
    requires ParsePortDebug(value).Some?
    ensures !Blank(value) && value != ""
  {
    DebugReaderIsCanonicalTransitReader(value, ParsePortDebug(value).value);
  }

  lemma NoErrorsConditions(form: Form, confirmations: Confirmations)
    ensures Errors(form, confirmations) == [] <==>
      && MissingErrors(form, RequiredFields()) == []
      && (form.plannedListenPort == "" || ParsePortDebug(form.plannedListenPort).Some?)
      && (form.landingTargetPort == "" || ParsePortDebug(form.landingTargetPort).Some?)
      && (form.routeName == "" || IsSafeRouteName(form.routeName))
      && form.forwardingMethod == "haproxy_tcp" && confirmations.All()
  {
  }

  predicate AllPresent(form: Form) {
    && !Blank(form.dryRunCommandId) && !Blank(form.transitResourceId) && !Blank(form.landingNodeId)
    && !Blank(form.plannedListenPort) && !Blank(form.landingTargetHost) && !Blank(form.landingTargetPort)
    && !Blank(form.routeName) && !Blank(form.approvalStage) && !Blank(form.finalApprovalText)
    && !Blank(form.realExecutionText)
  }

  lemma NoMissingConditions(form: Form)
    ensures MissingErrors(form, RequiredFields()) == [] <==> AllPresent(form)
  {
    if AllPresent(form) {
      forall f: Field ensures !Blank(TextOf(form, f)) { PresentField(form, f); }
    } else {
      var f := BlankField(form);
      EveryFieldRequired(f);
    }
  }

  lemma PresentField(form: Form, f: Field)
    requires AllPresent(form)
    ensures !Blank(TextOf(form, f))
  {
  }

  lemma BlankField(form: Form) returns (f: Field)
    requires !AllPresent(form)
    ensures Blank(TextOf(form, f))
  {
    if Blank(form.dryRunCommandId) { f := DryRunCommandId; }
    else if Blank(form.transitResourceId) { f := TransitResourceId; }
    else if Blank(form.landingNodeId) { f := LandingNodeId; }
    else if Blank(form.plannedListenPort) { f := PlannedListenPort; }
    else if Blank(form.landingTargetHost) { f := LandingTargetHost; }
    else if Blank(form.landingTargetPort) { f := LandingTargetPort; }
    else if Blank(form.routeName) { f := RouteName; }
    else if Blank(form.approvalStage) { f := ApprovalStage; }
    else if Blank(form.finalApprovalText) { f := FinalApprovalText; }
    else { f := RealExecutionText; }
  }

  lemma EveryFieldRequired(f: Field)
    ensures f in RequiredFields()
  {
  }

  /** The two checkers agree: on a form whose forwarding method is the only one its type allows, the error
      list is empty exactly when a payload is built. */
  lemma CheckersAgree(form: Form, confirmations: Confirmations)
    ensures Errors(form, confirmations) == []
            <==> BuildPayload(form, confirmations).Some? && form.forwardingMethod == "haproxy_tcp"
  {
    NoErrorsConditions(form, confirmations);
    NoMissingConditions(form);
    if ParsePortDebug(form.plannedListenPort).Some? { ReadablePortIsPresent(form.plannedListenPort); }
    if ParsePortDebug(form.landingTargetPort).Some? { ReadablePortIsPresent(form.landingTargetPort); }
    assert Blank("");
  }

  // ---------------------------------------------------------------- which errors

  /** This check fails on the form. */
  predicate Fails(form: Form, confirmations: Confirmations, e: FormError) {
    match e
    case Missing(field) => Blank(TextOf(form, field))
    case BadPlannedListenPort => form.plannedListenPort != "" && ParsePortDebug(form.plannedListenPort).None?
    case BadLandingTargetPort => form.landingTargetPort != "" && ParsePortDebug(form.landingTargetPort).None?
    case UnsafeRouteName => form.routeName != "" && !IsSafeRouteName(form.routeName)
    case WrongForwardingMethod => form.forwardingMethod != "haproxy_tcp"
    case Unconfirmed =>
      !(confirmations.firewallSecurityGroup && confirmations.cloudFirewall && confirmations.serverFirewall
        && confirmations.noCutover && confirmations.noNodeShareLinkChange && confirmations.noTransitShareLinkWrite
        && confirmations.noFullClientLink)
  }

  /** The text of a required field is the form's own. */
  lemma TextsAreTheForms(form: Form)
    ensures TextOf(form, DryRunCommandId) == form.dryRunCommandId
    ensures TextOf(form, TransitResourceId) == form.transitResourceId
    ensures TextOf(form, LandingNodeId) == form.landingNodeId
    ensures TextOf(form, PlannedListenPort) == form.plannedListenPort
    ensures TextOf(form, LandingTargetHost) == form.landingTargetHost
    ensures TextOf(form, LandingTargetPort) == form.landingTargetPort
    ensures TextOf(form, RouteName) == form.routeName
    ensures TextOf(form, ApprovalStage) == form.approvalStage
    ensures TextOf(form, FinalApprovalText) == form.finalApprovalText
    ensures TextOf(form, RealExecutionText) == form.realExecutionText
  {
  }

  /** The place of an error in the order of the checks. */
  function ErrorPlace(e: FormError): nat {
    match e
    case Missing(field) => FieldPlace(field)
    case BadPlannedListenPort => 10
    case BadLandingTargetPort => 11
    case UnsafeRouteName => 12
    case WrongForwardingMethod => 13
    case Unconfirmed => 14
  }

  function FieldPlace(field: Field): nat {
    match field
    case DryRunCommandId => 0
    case TransitResourceId => 1
    case LandingNodeId => 2
    case PlannedListenPort => 3
    case LandingTargetHost => 4
    case LandingTargetPort => 5
    case RouteName => 6
    case ApprovalStage => 7
    case FinalApprovalText => 8
    case RealExecutionText => 9
  }

  /** Each error at most once, in the order of the checks. */
  predicate InOrder(errors: seq<FormError>) {
    forall i, j :: 0 <= i < j < |errors| ==> ErrorPlace(errors[i]) < ErrorPlace(errors[j])
  }

  predicate Below(errors: seq<FormError>, place: nat) {
    forall i :: 0 <= i < |errors| ==> ErrorPlace(errors[i]) < place
  }

  /** The errors of the failing checks before this place. */
  ghost predicate Collected(fails: FormError -> bool, errors: seq<FormError>, place: nat) {
    InOrder(errors) && Below(errors, place) && forall e :: e in errors <==> ErrorPlace(e) < place && fails(e)
  }

  lemma SamePlace(x: FormError, e: FormError)
    requires !e.Missing?
    ensures ErrorPlace(x) == ErrorPlace(e) <==> x == e
  {
  }

  lemma PushCollects(fails: FormError -> bool, errors: seq<FormError>, e: FormError)
    requires !e.Missing? && Collected(fails, errors, ErrorPlace(e))
    ensures Collected(fails, PushIf(errors, fails(e), e), ErrorPlace(e) + 1)
  {
    var r := PushIf(errors, fails(e), e);
    forall x ensures x in r <==> ErrorPlace(x) < ErrorPlace(e) + 1 && fails(x) {
      SamePlace(x, e);
    }
  }

  lemma FieldAt(n: nat)
    requires n < 10
    ensures FieldPlace(RequiredFields()[n]) == n
    ensures forall f: Field :: FieldPlace(f) == n ==> f == RequiredFields()[n]
  {
  }

  lemma {:induction false} MissingCollects(form: Form, fails: FormError -> bool, n: nat)
    requires n <= 10 && forall f: Field :: fails(Missing(f)) == Blank(TextOf(form, f))
    ensures Collected(fails, MissingErrors(form, RequiredFields()[..n]), n)
  {
    var fields := RequiredFields();
    if n > 0 {
      MissingCollects(form, fails, n - 1);
      assert fields[..n][..n - 1] == fields[..n - 1] && fields[..n][n - 1] == fields[n - 1];
      FieldAt(n - 1);
      OneMoreMissing(fails, MissingErrors(form, fields[..n - 1]), fields[n - 1], n - 1);
    }
  }

  lemma OneMoreMissing(fails: FormError -> bool, errors: seq<FormError>, field: Field, n: nat)
    requires n < 10 && Collected(fails, errors, n) && FieldPlace(field) == n
    requires forall f: Field :: FieldPlace(f) == n ==> f == field
    ensures Collected(fails, errors + (if fails(Missing(field)) then [Missing(field)] else []), n + 1)
  {
    var r := errors + (if fails(Missing(field)) then [Missing(field)] else []);
    forall x ensures x in r <==> ErrorPlace(x) < n + 1 && fails(x) {
      assert ErrorPlace(x) == n ==> x == Missing(field);
    }
  }

  lemma PushesCollect(fails: FormError -> bool, missing: seq<FormError>)
    requires Collected(fails, missing, 10)
    ensures var planned := PushIf(missing, fails(BadPlannedListenPort), BadPlannedListenPort);
            var target := PushIf(planned, fails(BadLandingTargetPort), BadLandingTargetPort);
            var name := PushIf(target, fails(UnsafeRouteName), UnsafeRouteName);
            var forwarding := PushIf(name, fails(WrongForwardingMethod), WrongForwardingMethod);
      Collected(fails, PushIf(forwarding, fails(Unconfirmed), Unconfirmed), 15)
  {
    PushCollects(fails, missing, BadPlannedListenPort);
    var planned := PushIf(missing, fails(BadPlannedListenPort), BadPlannedListenPort);
    PushCollects(fails, planned, BadLandingTargetPort);
    var target := PushIf(planned, fails(BadLandingTargetPort), BadLandingTargetPort);
    PushCollects(fails, target, UnsafeRouteName);
    var name := PushIf(target, fails(UnsafeRouteName), UnsafeRouteName);
    PushCollects(fails, name, WrongForwardingMethod);
    PushCollects(fails, PushIf(name, fails(WrongForwardingMethod), WrongForwardingMethod), Unconfirmed);
  }

  lemma CollectedIsAll(fails: FormError -> bool, errors: seq<FormError>)
    requires Collected(fails, errors, 15)
    ensures InOrder(errors) && forall e :: e in errors <==> fails(e)
  {
  }

  lemma ErrorsCollect(form: Form, confirmations: Confirmations, fails: FormError -> bool)
    requires forall f: Field :: fails(Missing(f)) == Blank(TextOf(form, f))
    requires fails(BadPlannedListenPort)
             == (form.plannedListenPort != "" && ParsePortDebug(form.plannedListenPort).None?)
    requires fails(BadLandingTargetPort)
             == (form.landingTargetPort != "" && ParsePortDebug(form.landingTargetPort).None?)
    requires fails(UnsafeRouteName) == (form.routeName != "" && !IsSafeRouteName(form.routeName))
    requires fails(WrongForwardingMethod) == (form.forwardingMethod != "haproxy_tcp")
    requires fails(Unconfirmed) == !confirmations.All()
    ensures Collected(fails, Errors(form, confirmations), 15)
  {
    assert RequiredFields()[..10] == RequiredFields();
    MissingCollects(form, fails, 10);
    PushesCollect(fails, MissingErrors(form, RequiredFields()));
  }

  lemma ListedIffFails(form: Form, confirmations: Confirmations, e: FormError)
    ensures e in Errors(form, confirmations) <==> Fails(form, confirmations, e)
    ensures InOrder(Errors(form, confirmations))
  {
    var fails := (e: FormError) => Fails(form, confirmations, e);
    ErrorsCollect(form, confirmations, fails);
    CollectedIsAll(fails, Errors(form, confirmations));
    assert fails(e) == Fails(form, confirmations, e);
  }

  /** Each error is listed exactly when its own check fails, once and in the order of the checks. */
  lemma ErrorsAreFailedChecks(form: Form, confirmations: Confirmations)
    ensures var errors := Errors(form, confirmations);
      InOrder(errors) && forall e :: e in errors <==> Fails(form, confirmations, e)
  {
    ListedIffFails(form, confirmations, Unconfirmed);
    forall e ensures e in Errors(form, confirmations) <==> Fails(form, confirmations, e) {
      ListedIffFails(form, confirmations, e);
    }
  }

  /** A letter or digit by its code. */
  predicate StartsName(c: char) {
    48 <= c as int <= 57 || 65 <= c as int <= 90 || 97 <= c as int <= 122
  }

  /** A route name is safe exactly when, trimmed, it is one letter or digit and at most 119 more characters, each a
      letter, a digit, a dot, an underscore or a hyphen. */
  lemma SafeRouteNameIff(value: string)
    ensures IsSafeRouteName(value) <==>
      var t := Trim(value);
      && t != "" && StartsName(t[0]) && |t[1..]| <= 119
      && forall c :: c in t[1..] ==> StartsName(c) || c == '.' || c == '_' || c == '-'
  {
    var t := Trim(value);
    forall i | 1 <= i < |t| ensures t[i] in t[1..] {
      assert t[1..][i - 1] == t[i];
    }
    assert "._-"[0] == '.' && "._-"[1] == '_' && "._-"[2] == '-';
  }

  // ---------------------------------------------------------------- what a payload carries

  /** Each text of the payload is the trimmed form field of the same name, each port what the transit reader makes of
      its own field, and each confirmation is ticked. */
  predicate CarriesForm(form: Form, p: Payload) {
    && p.dryRunCommandId == Trim(form.dryRunCommandId)
    && p.transitResourceId == Trim(form.transitResourceId)
    && p.landingNodeId == Trim(form.landingNodeId)
    && ParsePortTransit(form.plannedListenPort) == Some(p.plannedListenPort)
    && p.landingTargetHost == Trim(form.landingTargetHost)
    && ParsePortTransit(form.landingTargetPort) == Some(p.landingTargetPort)
    && p.forwardingMethod == "haproxy_tcp"
    && p.routeName == Trim(form.routeName)
    && p.routeDisplayName == (if Blank(form.routeDisplayName) then None else Some(Trim(form.routeDisplayName)))
    && p.approvalStage == Trim(form.approvalStage)
    && p.finalApprovalText == Trim(form.finalApprovalText)
    && p.realExecutionText == Trim(form.realExecutionText)
    && p.firewallSecurityGroup && p.cloudFirewall && p.serverFirewall && p.noCutover && p.noNodeShareLinkChange
    && p.noFullClientLink
  }

  /** A payload carries the form field by field, and there is one exactly when the ports are printed without leading
      zeros, nothing required is blank, the route name is safe and all is confirmed. */
  lemma PayloadCarriesForm(form: Form, confirmations: Confirmations)
    ensures var p := BuildPayload(form, confirmations);
      && (p.Some? ==> CarriesForm(form, p.value))
      && (p.Some? <==>
            && AllPresent(form) && IsSafeRouteName(form.routeName) && confirmations.All()
            && PrintedPort(form.plannedListenPort) && PrintedPort(form.landingTargetPort))
  {
    PrintedPortIff(form.plannedListenPort);
    PrintedPortIff(form.landingTargetPort);
  }

  /** The text is a port without leading zero. */
  predicate PrintedPort(text: string) {
    ParsePortTransit(text).Some? && Trim(text)[0] != '0'
  }

  lemma PrintedPortIff(text: string)
    ensures ParsePortDebug(text).Some? <==> PrintedPort(text)
    ensures ParsePortDebug(text).Some? ==> ParsePortTransit(text) == ParsePortDebug(text) && !Blank(text)
  {
    if ParsePortDebug(text).Some? {
      DebugReaderIsCanonicalTransitReader(text, ParsePortDebug(text).value);
      ReadablePortIsPresent(text);
    }
    if ParsePortTransit(text).Some? {
      DebugReaderIsCanonicalTransitReader(text, ParsePortTransit(text).value);
    }
  }

  /** A form refilled from a payload, with ports printed in decimal. */
  function Refill(p: Payload): Form
    requires p.plannedListenPort >= 0 && p.landingTargetPort >= 0
  {
    Form(p.dryRunCommandId, p.transitResourceId, p.landingNodeId, Decimal(p.plannedListenPort),
         p.landingTargetHost, Decimal(p.landingTargetPort), p.forwardingMethod, p.routeName,
         if p.routeDisplayName.Some? then p.routeDisplayName.value else "",
         p.approvalStage, p.finalApprovalText, p.realExecutionText)
  }

  /** Refilling the form from a payload rebuilds that payload and shows no error. */
  lemma RefillRebuilds(form: Form, confirmations: Confirmations)
    requires BuildPayload(form, confirmations).Some?
    ensures var p := BuildPayload(form, confirmations).value;
            && InPortRange(p.plannedListenPort) && InPortRange(p.landingTargetPort)
            && BuildPayload(Refill(p), confirmations) == Some(p)
            && Errors(Refill(p), confirmations) == []
  {
    var p := BuildPayload(form, confirmations).value;
    PrintedPortReadsBack(p.plannedListenPort);
    PrintedPortReadsBack(p.landingTargetPort);
    TrimIdempotent(form.dryRunCommandId);
    TrimIdempotent(form.transitResourceId);
    TrimIdempotent(form.landingNodeId);
    TrimIdempotent(form.landingTargetHost);
    TrimIdempotent(form.routeName);
    TrimIdempotent(form.routeDisplayName);
    TrimIdempotent(form.approvalStage);
    TrimIdempotent(form.finalApprovalText);
    TrimIdempotent(form.realExecutionText);
    CheckersAgree(Refill(p), confirmations);
  }

  /** A dry-run candidate the panel can fill the form from; absent fields are `None`. */
  datatype Candidate = Candidate(
    id: string,
    transitResourceId: Option<string>,
    landingNodeId: Option<string>,
    plannedListenPort: Option<int>,
    landingTargetHost: Option<string>,
    landingTargetPort: Option<int>,
    routeName: Option<string>,
    routeDisplayName: Option<string>
  )

  const REAL_EXECUTION_STAGE: string := "Stage 3.3.139-new-transit-haproxy-route-create-real-execution"
  const FINAL_APPROVAL_TEXT: string := "CONFIRM_HAPROXY_ROUTE_CREATE_FINAL_APPROVAL_ONLY"
  const REAL_EXECUTION_PREFIX: string := "CONFIRM_REAL_HAPROXY_ROUTE_CREATE_"

  /** `expectedTextForPort`: `parseInt` accepts a numeric prefix, so trailing text is ignored. */
  function ExpectedTextForPort(port: string): string {
    var parsed := ParseInt(port);
    if parsed.None? || !InPortRange(parsed.value) then REAL_EXECUTION_PREFIX + "<planned_listen_port>"
    else REAL_EXECUTION_PREFIX + Decimal(parsed.value)
  }

  predicate Present(text: Option<string>) {
    text.Some? && text.value != ""
  }

  predicate PresentPort(port: Option<int>) {
    port.Some? && port.value != 0
  }

  /** The form `applyDebugContextCandidate` sets, or `None` when a needed field is missing. */
  function FormFromCandidate(c: Candidate): Option<Form> {
    if Present(c.transitResourceId) && Present(c.landingNodeId) && PresentPort(c.plannedListenPort)
       && Present(c.landingTargetHost) && PresentPort(c.landingTargetPort) && Present(c.routeName)
    then
      var planned := IntText(c.plannedListenPort.value);
      Some(Form(c.id, c.transitResourceId.value, c.landingNodeId.value, planned, c.landingTargetHost.value,
                IntText(c.landingTargetPort.value), "haproxy_tcp", c.routeName.value,
                if c.routeDisplayName.Some? then c.routeDisplayName.value else "",
                REAL_EXECUTION_STAGE, FINAL_APPROVAL_TEXT, ExpectedTextForPort(planned)))
    else None
  }

  lemma PrintedIntReads(n: int)
    ensures ParsePortDebug(IntText(n)) == if InPortRange(n) then Some(n) else None
  {
    if InPortRange(n) {
      PrintedPortReadsBack(n);
    } else if n < 0 {
      DecimalReadsBack(-n);
      assert IntText(n)[0] == '-';
      TrimFixesTight(IntText(n));
      assert !AllDigits(IntText(n));
      if m: int :| ParsePortDebug(IntText(n)) == Some(m) { DebugReaderIsCanonicalTransitReader(IntText(n), m); }
    } else {
      DecimalReadsBack(n);
      TrimFixesTight(Decimal(n));
      if m: int :| ParsePortDebug(IntText(n)) == Some(m) {
        DebugReaderIsCanonicalTransitReader(IntText(n), m);
      }
    }
  }

  /** A form filled from a candidate and then fully confirmed yields a payload exactly when the candidate's
      ports are ports, its texts are not blank and its route name is safe; the payload then names the candidate's
      own values, with the execution text for its own listen port. */
  lemma CandidateFormIsReadyIff(c: Candidate, confirmations: Confirmations)
    requires FormFromCandidate(c).Some? && confirmations.All()
    ensures var form := FormFromCandidate(c).value;
            && (BuildPayload(form, confirmations).Some? <==>
                  && InPortRange(c.plannedListenPort.value) && InPortRange(c.landingTargetPort.value)
                  && !Blank(c.id) && !Blank(c.transitResourceId.value) && !Blank(c.landingNodeId.value)
                  && !Blank(c.landingTargetHost.value) && IsSafeRouteName(c.routeName.value))
            && (BuildPayload(form, confirmations).Some? ==> NamesCandidate(BuildPayload(form, confirmations).value, c))
  {
    var form := FormFromCandidate(c).value;
    PrintedIntReads(c.plannedListenPort.value);
    PrintedIntReads(c.landingTargetPort.value);
    FixedTextsNotBlank();
    ExpectedTextReads(c.plannedListenPort.value);
    ReadyIff(form, confirmations);
    if BuildPayload(form, confirmations).Some? {
      CandidateIsNamed(c, confirmations);
    }
  }

  /** The payload names the candidate's command, resource, node, host, ports and names, and the fixed texts. */
  predicate NamesCandidate(p: Payload, c: Candidate)
    requires c.transitResourceId.Some? && c.landingNodeId.Some? && c.landingTargetHost.Some? && c.routeName.Some?
    requires c.plannedListenPort.Some? && c.plannedListenPort.value > 0
  {
    && p.dryRunCommandId == Trim(c.id)
    && p.transitResourceId == Trim(c.transitResourceId.value) && p.landingNodeId == Trim(c.landingNodeId.value)
    && Some(p.plannedListenPort) == c.plannedListenPort && Some(p.landingTargetPort) == c.landingTargetPort
    && p.landingTargetHost == Trim(c.landingTargetHost.value) && p.routeName == Trim(c.routeName.value)
    && p.routeDisplayName == (if c.routeDisplayName.None? || Blank(c.routeDisplayName.value) then None
                              else Some(Trim(c.routeDisplayName.value)))
    && p.approvalStage == Trim("Stage 3.3.139-new-transit-haproxy-route-create-real-execution")
    && p.finalApprovalText == Trim("CONFIRM_HAPROXY_ROUTE_CREATE_FINAL_APPROVAL_ONLY")
    && p.realExecutionText == "CONFIRM_REAL_HAPROXY_ROUTE_CREATE_" + Decimal(c.plannedListenPort.value)
  }

  /** A candidate fills the form exactly when its resource, node, ports, host and route name are there. */
  lemma CandidateFillsIff(c: Candidate)
    ensures FormFromCandidate(c).Some? <==>
      && c.transitResourceId.Some? && c.transitResourceId.value != "" && c.landingNodeId.Some?
      && c.landingNodeId.value != "" && c.plannedListenPort.Some? && c.plannedListenPort.value != 0
      && c.landingTargetHost.Some? && c.landingTargetHost.value != "" && c.landingTargetPort.Some?
      && c.landingTargetPort.value != 0 && c.routeName.Some? && c.routeName.value != ""
  {
  }

  /** For a text that reads as no port the expected text keeps its placeholder. */
  lemma NoPortExpectsPlaceholder(port: string)
    requires ParseInt(port).None? || ParseInt(port).value < 1 || ParseInt(port).value > 65535
    ensures ExpectedTextForPort(port) == "CONFIRM_REAL_HAPROXY_ROUTE_CREATE_" + "<planned_listen_port>"
  {
  }

  lemma CandidateForm(c: Candidate)
    requires FormFromCandidate(c).Some?
    ensures var form := FormFromCandidate(c).value;
      && form.dryRunCommandId == c.id && Some(form.transitResourceId) == c.transitResourceId
      && Some(form.landingNodeId) == c.landingNodeId && Some(form.landingTargetHost) == c.landingTargetHost
      && Some(form.routeName) == c.routeName
      && form.routeDisplayName == (if c.routeDisplayName.Some? then c.routeDisplayName.value else "")
      && form.plannedListenPort == IntText(c.plannedListenPort.value)
      && form.landingTargetPort == IntText(c.landingTargetPort.value)
      && form.approvalStage == REAL_EXECUTION_STAGE && form.finalApprovalText == FINAL_APPROVAL_TEXT
      && form.realExecutionText == ExpectedTextForPort(IntText(c.plannedListenPort.value))
  {
  }

  lemma PrintedIntIsRead(n: int, read: int)
    requires ParsePortTransit(IntText(n)) == Some(read) && PrintedPort(IntText(n))
    ensures read == n && InPortRange(n)
  {
    PrintedIntReads(n);
    PrintedPortIff(IntText(n));
  }

  lemma CandidateIsNamed(c: Candidate, confirmations: Confirmations)
    requires FormFromCandidate(c).Some? && BuildPayload(FormFromCandidate(c).value, confirmations).Some?
    ensures c.plannedListenPort.value > 0
    ensures NamesCandidate(BuildPayload(FormFromCandidate(c).value, confirmations).value, c)
  {
    var form := FormFromCandidate(c).value;
    var p := BuildPayload(form, confirmations).value;
    PayloadCarriesForm(form, confirmations);
    CandidateForm(c);
    PrintedIntIsRead(c.plannedListenPort.value, p.plannedListenPort);
    PrintedIntIsRead(c.landingTargetPort.value, p.landingTargetPort);
    ExpectedTextReads(c.plannedListenPort.value);
    CarriedIsNamed(form, p, c);
  }

  lemma CarriedIsNamed(form: Form, p: Payload, c: Candidate)
    requires CarriesForm(form, p)
    requires form.dryRunCommandId == c.id && Some(form.transitResourceId) == c.transitResourceId
    requires Some(form.landingNodeId) == c.landingNodeId && Some(form.landingTargetHost) == c.landingTargetHost
    requires Some(form.routeName) == c.routeName
    requires form.routeDisplayName == (if c.routeDisplayName.Some? then c.routeDisplayName.value else "")
    requires form.approvalStage == REAL_EXECUTION_STAGE && form.finalApprovalText == FINAL_APPROVAL_TEXT
    requires Some(p.plannedListenPort) == c.plannedListenPort && Some(p.landingTargetPort) == c.landingTargetPort
    requires c.plannedListenPort.value > 0
    requires Trim(form.realExecutionText) == REAL_EXECUTION_PREFIX + Decimal(c.plannedListenPort.value)
    ensures NamesCandidate(p, c)
  {
    assert Blank("");
  }

  /** With its fixed texts present, a confirmed form yields a payload exactly when the other fields are well
      formed. */
  lemma ReadyIff(form: Form, confirmations: Confirmations)
    requires confirmations.All() && form.forwardingMethod == "haproxy_tcp"
    requires !Blank(form.approvalStage) && !Blank(form.finalApprovalText) && !Blank(form.realExecutionText)
    ensures BuildPayload(form, confirmations).Some? <==>
            && ParsePortDebug(form.plannedListenPort).Some? && ParsePortDebug(form.landingTargetPort).Some?
            && !Blank(form.dryRunCommandId) && !Blank(form.transitResourceId) && !Blank(form.landingNodeId)
            && !Blank(form.landingTargetHost) && IsSafeRouteName(form.routeName)
  {
  }

  lemma FixedTextsNotBlank()
    ensures !Blank(REAL_EXECUTION_STAGE) && !Blank(FINAL_APPROVAL_TEXT)
  {
    LastLetterNotBlank(REAL_EXECUTION_STAGE);
    LastLetterNotBlank(FINAL_APPROVAL_TEXT);
  }

  lemma {:induction false} LastLetterNotBlank(s: string)
    requires s != [] && !IsSpace(s[|s| - 1])
    ensures !Blank(s)
  {
    if IsSpace(s[0]) {
      LastLetterNotBlank(s[1..]);
    }
  }

  lemma ExpectedTextReads(n: int)
    ensures !Blank(ExpectedTextForPort(IntText(n)))
    ensures InPortRange(n) ==> Trim(ExpectedTextForPort(IntText(n))) == REAL_EXECUTION_PREFIX + Decimal(n)
  {
    if InPortRange(n) {
      ExpectedTextOfPort(n);
    } else {
      NotBlank(ExpectedTextForPort(IntText(n)));
    }
  }

  lemma ExpectedTextOfPort(n: nat)
    requires InPortRange(n)
    ensures ExpectedTextForPort(Decimal(n)) == REAL_EXECUTION_PREFIX + Decimal(n)
    ensures Trim(REAL_EXECUTION_PREFIX + Decimal(n)) == REAL_EXECUTION_PREFIX + Decimal(n)
    ensures !Blank(REAL_EXECUTION_PREFIX + Decimal(n))
  {
    DecimalReadsBack(n);
    TrimFixesTight(Decimal(n));
    ParseIntReadsTrimmedDigits(Decimal(n));
    var d, p := Decimal(n), REAL_EXECUTION_PREFIX;
    assert d[|d| - 1] == (p + d)[|p + d| - 1] && p[0] == (p + d)[0];
    TrimFixesTight(p + d);
  }

  lemma NotBlank(s: string)
    requires s != [] && !IsSpace(s[0])
    ensures !Blank(s)
  {
    TrimEndBoundary(s);
  }
}
