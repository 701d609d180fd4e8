/** Optimistic deletion in the server, transit-resource and transit-route panels, as one machine over atomic
    steps. An entry is hidden when its delete is submitted. The delete button is locked until the reload after
    the answer has ended; any number of cleanup polls, list loads and heartbeat polls may be in flight, and the
    server answers anything, or throws, at any time. */
module DeletionPanel {
  import opened Text
  import opened Listing

  datatype PanelKind = Servers | Resources | Routes

  datatype Child = Child(id: string, status: string)

  /** `deleted` stands for a non-null `deleted_at`; only servers have child nodes. */
  datatype Item = Item(id: string, status: string, deleted: bool, name: string, nodes: seq<Child>)

  datatype Target = Whole(id: string) | Node(id: string)

  // ---------------------------------------------------------------- the filter every list passes

  predicate Shows(kind: PanelKind, x: Item, pending: set<string>) {
    x.id !in pending && !Deleted(x.status) && (kind == Servers || !x.deleted)
  }

  predicate ShowsNode(n: Child, pendingNodes: set<string>) {
    n.id !in pendingNodes && !Deleted(n.status)
  }

  function VisibleNodes(nodes: seq<Child>, pendingNodes: set<string>): seq<Child> {
    Filter(nodes, (n: Child) => ShowsNode(n, pendingNodes))
  }

  function VisibleItem(kind: PanelKind, x: Item, pendingNodes: set<string>): Item {
    if kind == Servers then x.(nodes := VisibleNodes(x.nodes, pendingNodes)) else x
  }

  /** `filterVisibleServers`, `filterVisibleTransitResources` and `filterVisibleTransitRoutes`. */
  function Visible(kind: PanelKind, xs: seq<Item>, pending: set<string>, pendingNodes: set<string>): (r: seq<Item>)
    ensures forall y :: y in r ==>
      exists x :: x in xs && Shows(kind, x, pending) && y == VisibleItem(kind, x, pendingNodes)
    ensures forall x :: x in xs && Shows(kind, x, pending) ==> VisibleItem(kind, x, pendingNodes) in r
  {
    if xs == [] then []
    else
      var n := |xs| - 1;
      assert xs == xs[..n] + [xs[n]];
      Visible(kind, xs[..n], pending, pendingNodes)
      + (if Shows(kind, xs[n], pending) then [VisibleItem(kind, xs[n], pendingNodes)] else [])
  }

  /** A list entry that is not deleted; only the transit panels look at `deleted_at`. */
  predicate Live(kind: PanelKind, x: Item) {
    LowerText(x.status) != "deleted" && (x.deleted ==> kind == Servers)
  }

  /** Nothing in the list is pending or deleted, down to the child nodes of servers. */
  predicate Clean(kind: PanelKind, xs: seq<Item>, pending: set<string>, pendingNodes: set<string>) {
    forall x :: x in xs ==>
      && x.id !in pending && Live(kind, x)
      && (kind == Servers ==> forall n :: n in x.nodes ==> n.id !in pendingNodes && LowerText(n.status) != "deleted")
  }

  /** Target `t` is in the list: an entry, or a child node of an entry. */
  predicate Has(xs: seq<Item>, t: Target) {
    match t
    case Whole(id) => exists x :: x in xs && x.id == id
    case Node(id) => exists x :: x in xs && exists n :: n in x.nodes && n.id == id
  }

  predicate HasLiveNode(x: Item, id: string) {
    exists n :: n in x.nodes && n.id == id && LowerText(n.status) != "deleted"
  }

  /** Target `t` has an undeleted occurrence in the list, for a node under an undeleted, not pending entry. */
  predicate HasLive(kind: PanelKind, xs: seq<Item>, t: Target, pending: set<string>) {
    match t
    case Whole(id) => exists x :: x in xs && x.id == id && Live(kind, x)
    case Node(id) => exists x :: x in xs && x.id !in pending && Live(kind, x) && HasLiveNode(x, id)
  }

  lemma VisibleIsClean(kind: PanelKind, xs: seq<Item>, pending: set<string>, pendingNodes: set<string>)
    ensures Clean(kind, Visible(kind, xs, pending, pendingNodes), pending, pendingNodes)
  {
  }

  lemma VisibleHasWhole(kind: PanelKind, xs: seq<Item>, pending: set<string>, pendingNodes: set<string>, id: string)
    ensures Has(Visible(kind, xs, pending, pendingNodes), Whole(id))
            <==> id !in pending && HasLive(kind, xs, Whole(id), pending)
  {
    var r := Visible(kind, xs, pending, pendingNodes);
    if id !in pending && HasLive(kind, xs, Whole(id), pending) {
      var x :| x in xs && x.id == id && Live(kind, x);
      assert VisibleItem(kind, x, pendingNodes) in r;
    }
  }

  lemma VisibleItemHasNode(x: Item, pendingNodes: set<string>, id: string)
    ensures (exists n :: n in VisibleItem(Servers, x, pendingNodes).nodes && n.id == id)
            <==> id !in pendingNodes && HasLiveNode(x, id)
  {
  }

  lemma VisibleNodeIsLive(xs: seq<Item>, pending: set<string>, pendingNodes: set<string>, id: string)
    requires Has(Visible(Servers, xs, pending, pendingNodes), Node(id))
    ensures id !in pendingNodes && HasLive(Servers, xs, Node(id), pending)
  {
    var r := Visible(Servers, xs, pending, pendingNodes);
    var y :| y in r && exists n :: n in y.nodes && n.id == id;
    var x :| x in xs && Shows(Servers, x, pending) && y == VisibleItem(Servers, x, pendingNodes);
    VisibleItemHasNode(x, pendingNodes, id);
  }

  lemma LiveNodeIsVisible(xs: seq<Item>, pending: set<string>, pendingNodes: set<string>, id: string)
    requires id !in pendingNodes && HasLive(Servers, xs, Node(id), pending)
    ensures Has(Visible(Servers, xs, pending, pendingNodes), Node(id))
  {
    var x :| x in xs && x.id !in pending && Live(Servers, x) && HasLiveNode(x, id);
    VisibleItemHasNode(x, pendingNodes, id);
    assert Shows(Servers, x, pending);
    assert VisibleItem(Servers, x, pendingNodes) in Visible(Servers, xs, pending, pendingNodes);
  }

  lemma VisibleHasNode(xs: seq<Item>, pending: set<string>, pendingNodes: set<string>, id: string)
    ensures Has(Visible(Servers, xs, pending, pendingNodes), Node(id))
            <==> id !in pendingNodes && HasLive(Servers, xs, Node(id), pending)
  {
    if Has(Visible(Servers, xs, pending, pendingNodes), Node(id)) {
      VisibleNodeIsLive(xs, pending, pendingNodes, id);
    }
    if id !in pendingNodes && HasLive(Servers, xs, Node(id), pending) {
      LiveNodeIsVisible(xs, pending, pendingNodes, id);
    }
  }

  /** The filter keeps the order: a further entry goes to the end. */
  lemma VisibleSnoc(kind: PanelKind, xs: seq<Item>, x: Item, pending: set<string>, pendingNodes: set<string>)
    ensures Visible(kind, xs + [x], pending, pendingNodes)
            == Visible(kind, xs, pending, pendingNodes)
               + if Shows(kind, x, pending) then [VisibleItem(kind, x, pendingNodes)] else []
  {
    assert (xs + [x])[..|xs|] == xs;
  }

  /** `y` is the entry `x` as fetched, for servers without its pending and deleted nodes. */
  ghost predicate IsEntry(kind: PanelKind, x: Item, pendingNodes: set<string>, y: Item) {
    && y.id == x.id && y.status == x.status && y.deleted == x.deleted && y.name == x.name
    && forall n :: n in y.nodes <==>
         n in x.nodes && (kind == Servers ==> n.id !in pendingNodes && LowerText(n.status) != "deleted")
  }

  /** A filtered list holds entries as they were fetched. */
  lemma VisibleHoldsEntries(kind: PanelKind, xs: seq<Item>, pending: set<string>, pendingNodes: set<string>)
    ensures forall y :: y in Visible(kind, xs, pending, pendingNodes) ==>
              exists x :: x in xs && IsEntry(kind, x, pendingNodes, y)
  {
    forall y | y in Visible(kind, xs, pending, pendingNodes)
      ensures exists x :: x in xs && IsEntry(kind, x, pendingNodes, y)
    {
      var x :| x in xs && Shows(kind, x, pending) && y == VisibleItem(kind, x, pendingNodes);
      assert IsEntry(kind, x, pendingNodes, y);
    }
  }

  // ---------------------------------------------------------------- one delete

  /** What an await resumes with. `Listed` is the list a reload fetched and wrote; `Finished` ends the reload. */
  datatype Answer =
    | Threw
    | Refused
    | Token
    | Accepted(hasCommand: bool)
    | Listed(list: seq<Item>)
    | Finished
    | Status(status: string)

  /** `AwaitPoll(n)`: `n` polls of the cleanup command are behind. */
  datatype Pc =
    | AwaitCsrf
    | AwaitDelete
    | AwaitRefusedReload
    | AwaitAcceptedReload(hasCommand: bool)
    | AwaitCaughtReload
    | AwaitPoll(n: nat)
    | AwaitLastReload
    | Done

  const MAX_POLLS: nat := 30
  const CLEANUP_TERMINAL: set<string> := {"succeeded", "failed", "cancelled", "timeout", "expired"}

  /** `released`: this delete took its target out of the pending set. `trail`: the answers it got. `polls`:
      the polls answered so far. */
  datatype Flow = Flow(target: Target, pc: Pc, trail: seq<Answer>, released: bool, polls: nat)

  /** What one resume does: where the flow goes, and whether it releases its target. */
  datatype Effect = Effect(pc: Pc, release: bool)

  function PolledOn(n: nat): Effect {
    Effect(if n + 1 < MAX_POLLS then AwaitPoll(n + 1) else AwaitLastReload, false)
  }

  /** A reload: `onFinish` follows its end, `onThrow` an exception out of it. */
  function Reloading(pc: Pc, answer: Answer, onFinish: Pc, onThrow: Effect): Option<Effect> {
    match answer
    case Listed(_) => Some(Effect(pc, false))
    case Finished => Some(Effect(onFinish, false))
    case Threw => Some(onThrow)
    case _ => None
  }

  /** A delete after its await resumes; an answer of the wrong shape is no step. */
  function Step(pc: Pc, answer: Answer): Option<Effect> {
    match pc
    case AwaitCsrf =>
      if answer.Token? then Some(Effect(AwaitDelete, false))
      else if answer.Refused? || answer.Threw? then Some(Effect(AwaitCaughtReload, true)) else None
    case AwaitDelete =>
      if answer.Accepted? then Some(Effect(AwaitAcceptedReload(answer.hasCommand), false))
      else if answer.Refused? then Some(Effect(AwaitRefusedReload, true))
      else if answer.Threw? then Some(Effect(AwaitCaughtReload, true)) else None
    case AwaitRefusedReload => Reloading(pc, answer, Done, Effect(AwaitCaughtReload, true))
    case AwaitAcceptedReload(hasCommand) =>
      Reloading(pc, answer, if hasCommand then AwaitPoll(0) else Done, Effect(AwaitCaughtReload, true))
    case AwaitCaughtReload => Reloading(pc, answer, Done, Effect(Done, false))
    case AwaitPoll(n) =>
      if answer.Status? then
        Some(if answer.status in CLEANUP_TERMINAL then Effect(AwaitLastReload, answer.status != "succeeded")
             else PolledOn(n))
      else if answer.Refused? then Some(PolledOn(n))
      else if answer.Threw? then Some(Effect(Done, false)) else None
    case AwaitLastReload => Reloading(pc, answer, Done, Effect(Done, false))
    case Done => None
  }

  function Moved(f: Flow, answer: Answer, effect: Effect): Flow {
    Flow(f.target, effect.pc, f.trail + [answer], f.released || effect.release,
         f.polls + if f.pc.AwaitPoll? then 1 else 0)
  }

  // ---------------------------------------------------------------- the panel

  /** The handler holds the submit lock. */
  predicate Locks(pc: Pc) {
    pc.AwaitCsrf? || pc.AwaitDelete? || pc.AwaitRefusedReload? || pc.AwaitAcceptedReload? || pc.AwaitCaughtReload?
  }

  predicate Locked(flows: seq<Flow>) {
    exists i :: 0 <= i < |flows| && Locks(flows[i].pc)
  }

  /** `polled` is the entry whose Worker heartbeat is polled; `dialog` the target of the delete dialog. */
  datatype State = State(kind: PanelKind, shown: seq<Item>, pending: set<string>, pendingNodes: set<string>,
                         polled: Option<string>, dialog: Option<Target>, flows: seq<Flow>)

  function Init(kind: PanelKind): State {
    State(kind, [], {}, {}, None, None, [])
  }

  /** `Load` is any list load outside a delete, heartbeat polls included. `Tick` is a heartbeat timer that
      fires; `StopPolling` any other end of a heartbeat wait. `CloseDialog` is whatever closes the delete
      dialog or shows another one in its place. */
  datatype Event =
    | Load(list: seq<Item>)
    | Rename(id: string, name: string)
    | StartPolling(id: string)
    | Tick(id: string)
    | StopPolling
    | OpenDialog(target: Target)
    | CloseDialog
    | Delete(target: Target)
    | Resume(i: nat, answer: Answer)

  predicate IsPending(s: State, t: Target) {
    if t.Whole? then t.id in s.pending else t.id in s.pendingNodes
  }

  /** Only servers have nodes to delete. */
  predicate Deletable(kind: PanelKind, t: Target) {
    t.Whole? || kind == Servers
  }

  /** The list offers to delete `t`; the routes panel locks this button too. */
  predicate CanOpen(s: State, t: Target) {
    Deletable(s.kind, t) && Has(s.shown, t) && (s.kind == Routes ==> !Locked(s.flows))
  }

  /** The dialog shows `t` with its button enabled; the routes panel shows it only for a route in the list. */
  predicate CanDelete(s: State, t: Target) {
    Deletable(s.kind, t) && s.dialog == Some(t) && !Locked(s.flows) && (s.kind == Routes ==> Has(s.shown, t))
  }

  function SetVisible(s: State, list: seq<Item>): State {
    s.(shown := Visible(s.kind, list, s.pending, s.pendingNodes))
  }

  /** The mark functions: the shown list is filtered again with the target added. */
  function Mark(s: State, t: Target): State {
    var m := if t.Whole?
             then s.(pending := s.pending + {t.id}, polled := if s.polled == Some(t.id) then None else s.polled)
             else s.(pendingNodes := s.pendingNodes + {t.id});
    SetVisible(m, m.shown)
  }

  /** The release functions: the shown list waits for the next load. */
  function Release(s: State, t: Target): State {
    if t.Whole? then s.(pending := s.pending - {t.id}) else s.(pendingNodes := s.pendingNodes - {t.id})
  }

  function Renamed(xs: seq<Item>, id: string, name: string): (r: seq<Item>)
    ensures |r| == |xs|
    ensures forall k :: 0 <= k < |xs| ==> r[k] == if xs[k].id == id then xs[k].(name := name) else xs[k]
  {
    seq(|xs|, k requires 0 <= k < |xs| => if xs[k].id == id then xs[k].(name := name) else xs[k])
  }

  /** The check at the head of a heartbeat poll: a chain of a pending entry ends the polling. */
  function PollHead(s: State, id: string): State {
    if id in s.pending then s.(polled := None) else s
  }

  function Resumed(s: State, i: nat, answer: Answer): State
    requires i < |s.flows|
  {
    var f := s.flows[i];
    var effect := Step(f.pc, answer);
    if effect.None? then s
    else
      var loaded := if answer.Listed? then SetVisible(s, answer.list) else s;
      var freed := if effect.value.release then Release(loaded, f.target) else loaded;
      freed.(dialog := if f.pc.AwaitDelete? && answer.Accepted? then None else s.dialog,
             flows := s.flows[i := Moved(f, answer, effect.value)])
  }

  /** One event; an event the panel does not offer changes nothing. */
  function Apply(s: State, e: Event): State {
    match e
    case Load(list) => SetVisible(s, list)
    case Rename(id, name) => if s.kind == Routes then s.(shown := Renamed(s.shown, id, name)) else s
    case StartPolling(id) => if s.kind == Routes then s else PollHead(s.(polled := Some(id)), id)
    case Tick(id) => PollHead(s, id)
    case StopPolling => s.(polled := None)
    case OpenDialog(t) => if CanOpen(s, t) then s.(dialog := Some(t)) else s
    case CloseDialog => s.(dialog := None)
    case Delete(t) =>
      if CanDelete(s, t) then Mark(s, t).(flows := s.flows + [Flow(t, AwaitCsrf, [], false, 0)]) else s
    case Resume(i, answer) => if i < |s.flows| then Resumed(s, i, answer) else s
  }

  function Run(kind: PanelKind, events: seq<Event>): State {
    if events == [] then Init(kind) else Apply(Run(kind, events[..|events| - 1]), events[|events| - 1])
  }

  // ---------------------------------------------------------------- what shows

  predicate ShowsNothingHidden(s: State) {
    Clean(s.kind, s.shown, s.pending, s.pendingNodes) && (s.polled.Some? ==> s.polled.value !in s.pending)
  }

  lemma ListedKeepsHidden(s: State, list: seq<Item>)
    requires ShowsNothingHidden(s)
    ensures ShowsNothingHidden(SetVisible(s, list))
  {
    VisibleIsClean(s.kind, list, s.pending, s.pendingNodes);
  }

  lemma MarkKeepsHidden(s: State, t: Target)
    requires ShowsNothingHidden(s)
    ensures ShowsNothingHidden(Mark(s, t))
  {
    VisibleIsClean(s.kind, s.shown, Mark(s, t).pending, Mark(s, t).pendingNodes);
  }

  lemma RenameKeepsHidden(s: State, id: string, name: string)
    requires ShowsNothingHidden(s)
    ensures ShowsNothingHidden(s.(shown := Renamed(s.shown, id, name)))
  {
    var r := Renamed(s.shown, id, name);
    forall y | y in r
      ensures Shows(s.kind, y, s.pending)
              && (s.kind == Servers ==> forall n :: n in y.nodes ==> ShowsNode(n, s.pendingNodes))
    {
      var k :| 0 <= k < |r| && r[k] == y;
      assert s.shown[k] in s.shown;
    }
  }

  lemma ReleaseKeepsHidden(s: State, t: Target)
    requires ShowsNothingHidden(s)
    ensures ShowsNothingHidden(Release(s, t))
  {
  }

  lemma ApplyKeepsHidden(s: State, e: Event)
    requires ShowsNothingHidden(s)
    ensures ShowsNothingHidden(Apply(s, e))
  {
    match e
    case Load(list) => ListedKeepsHidden(s, list);
    case Rename(id, name) => RenameKeepsHidden(s, id, name);
    case Delete(t) => MarkKeepsHidden(s, t);
    case Resume(i, answer) =>
      if i < |s.flows| && Step(s.flows[i].pc, answer).Some? {
        var loaded := if answer.Listed? then SetVisible(s, answer.list) else s;
        if answer.Listed? {
          ListedKeepsHidden(s, answer.list);
        }
        ReleaseKeepsHidden(loaded, s.flows[i].target);
      }
    case _ =>
  }

  /** Whatever is loaded, polled, renamed, deleted or released, and in whatever order: nothing pending or
      deleted shows, and no pending entry is polled. */
  lemma {:induction false} NothingHiddenShows(kind: PanelKind, events: seq<Event>)
    ensures ShowsNothingHidden(Run(kind, events)) && Run(kind, events).kind == kind
  {
    if events != [] {
      NothingHiddenShows(kind, events[..|events| - 1]);
      ApplyKeepsHidden(Run(kind, events[..|events| - 1]), events[|events| - 1]);
    }
  }
}
