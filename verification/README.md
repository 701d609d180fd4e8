# LiveLine console: verified model of the client-side protocol logic

The console's React panels hold the protocol logic of the product: which request may follow which, what a
closed dialog may still do, what a deleted entry may still show, what a task payload may still leak. This
project models that logic in Dafny and proves what it keeps.

## What is modelled

- **Transit create** (`TransitCreate*.dfy`, `CommandWait.dfy`): the create modal of the transit routes page.
  A socat route goes preflight, create, refresh, export; an HAProxy route goes readiness, dry-run, final
  approval, a human confirm click, real execution, refresh, export. `CommandWait` is the bounded wait for a
  Worker command.
- **Deletion** (`DeletionPanel.dfy`, `DeletionTheorems.dfy`, `ManagementPanel.dfy`): optimistic deletion with
  pending sets, the delete dialog with its lock, and cleanup polling. The server, transit-resource and
  transit-route panels share it, so one machine takes the kind of panel as a parameter.
- **Direct node** (`DirectNode*.dfy`): the plan-then-create modal with its confirm text.
- **Landing node** (`Landing*.dfy`): the one-click preflight, plan, create flow and the name that follows the
  port.
- **Redactors** (`TaskRedaction.dfy`, `DebugRedaction.dfy`, over `Json.dfy` and `Text.dfy`).
- **Validators and planners** (`Ports.dfy`, `DebugForm.dfy`, `ResourcePlans.dfy`).

Code between two awaits is one step. A handler in flight is a flow: a program counter, the values its closure
captured at render time, and a trail of what it sent and saw. The server answers anything or throws at any
time; a click is a step only when its button is rendered and enabled; closing a modal cancels nothing, so any
number of flows may run. `Run` folds any list of events from a fresh mount, and the main theorems hold for
every such list.

Handlers appear in two forms. The modules `TransitCreateModal`, `ManagementPanel`, `DirectNodeModal` and
`LandingNodeModal` are classes with the component's fields, an invariant `Valid` and one method per handler and
per continuation after an await; each writes the fields in order and is proved to make the machine's step, and
every event keeps `Valid`. `TransitCreateHandlers` and `LandingHandlers` are the long asynchronous handlers as
straight-line methods with their loops, proved to leave what the machine leaves when it is fed the same
replies.

The modules ending in `Page` and `Requests` tie these machines to what a user sees: what a click captures is what
the page showed, what a request carries is what its click captured, and what the page shows after an answer is what
the answer says. Their remaining lemmas state, input by input and field by field, what single edits and answers
write.

## Findings

Where the code does something else than one would expect, the model follows the code.

- A confirm click keeps the approved context, but the confirm flow looks for the created route in what the
  form shows at the click, and the form stays editable. The exported link can belong to another route than
  the one requested; `ConfirmExportsRequestedIff` says exactly when the route has the requested resource, node,
  ports and method, and `EditedFormExportsAnother` gives a run in which it has not. A route with these five
  values can be older than the request.
- `sanitizeValue` is not idempotent on arrays of more than nine entries: it appends a notice entry, and a
  second pass shortens again. It is idempotent exactly when no array it enters is longer, and always settles
  after two passes.
- `redactDebugJson` assigns members with `next[key] = ...`, so a member named `__proto__` is lost;
  `RedactKeepsShape` carries the exact condition, at any depth.
- A delete that the server accepted is released again when the list reload after it throws, and then its
  cleanup command is never polled (`ThrownReloadNeverPolls`, with a run in `AcceptedDeleteComesBack`).
- When the list fetch after a succeeded create command fails, `findCreatedTransitRoute` looks at the list the
  click captured. A create flow then exports nothing, because submit checked that list for a conflict. The
  confirm click checks nothing: a confirm flow then exports a link exactly when a matching route was already on
  screen at the click (`FailedFetchExportsIff`, with a run in `FailedFetchExportsOld`).
- Three success answers of the direct-node requests leave the modal in a state its buttons are not meant for.
  `WholeAnswersFit` says that without them the step always fits the results and every confirm text is newer than
  the last edit.
  - A ready plan without its list of blocked reasons is held before the exception its missing list raises, so the
    step is not written: it still fits exactly when a plan that counts as ready was held (`AnswersKeepStepIff`,
    with a run in `StepMayNotFit`). Rendering such a plan throws too and takes the modal down unless no server is
    online.
  - A plan success without data drops the held plan but not the confirm text, and with no plan held an edit does not
    drop it either. A later create can be sent with a text older than an edit: the text is newer than the last
    edit exactly when no field was edited after such an answer (`CreateRequestIsPlanned`, with a run in
    `OldTextMayCreate`).
  - A create success without data leaves no result, so the create button is enabled again exactly when it would be
    without the lock (`AcceptedReopensIff`). A create accepted with data ends the session
    (`NothingAfterAcceptedCreate`); after one accepted without, another can be accepted (`TwoCreatesMayBeAccepted`).

## Model

| member | source | states |
|---|---|---|
| TransitCreateTheorems.RealExecutionIsApproved | frontend/components/TransitRoutesPanel.tsx:1991-2028 | in every run, a real-execution request repeats the dry-run command, resource and node of one earlier finished flow that saw that dry-run succeed, and the port, target and name of that flow's ready, unblocked final approval |
| TransitCreateTheorems.ApprovalIsUsedAtMostOnce | frontend/components/TransitRoutesPanel.tsx:1891-2028 | two real-execution requests from contexts of the same approving flow are one and the same request |
| TransitCreateTheorems.ShownContextIsUnused | frontend/components/TransitRoutesPanel.tsx:3767-3774 | while the confirm step shows with a context, that context is a passed approval no flow was confirmed from yet |
| TransitCreateTheorems.ExportIsJustified | frontend/components/TransitRoutesPanel.tsx:1901-2055 | a client link is requested only after, in that flow and in order, preflight or approval, the create command seen succeeded, and an active undeleted route matching the captured resource, node, ports and method |
| TransitCreateTheorems.ProgressFallsBackOnlyAtConfirm | frontend/components/TransitRoutesPanel.tsx:321-325 | no flow moves back on the progress bar; only a confirm flow starts behind the point its approving flow reached |
| TransitCreateTheorems.CapturedListNeverMatches | frontend/components/TransitRoutesPanel.tsx:1704-1720 | what passed the conflict check at submit holds no route the flow later looks for |
| TransitCreateTheorems.FailedFetchExportsIff | frontend/components/TransitRoutesPanel.tsx:1504-1536 | in every run, after a failed list fetch a flow exports a link if and only if it is a confirm flow whose captured list has a matching route, and then that route's; every other flow fails |
| TransitCreateWitnesses.FailedFetchExportsOld | frontend/components/TransitRoutesPanel.tsx:2042-2055 | a run without any edit in which a confirm flow exports a route that was on screen before the click |
| TransitCreateTheorems.ListsExportIff | frontend/components/TransitRoutesPanel.tsx:1704-1720 | a flow goes on to export if and only if the list it looks at, fetched or captured, has a matching route, and it exports one of that list |
| TransitCreateTheorems.ConfirmExportsRequestedIff | frontend/components/TransitRoutesPanel.tsx:1991-2055 | the route a confirm flow exports has the requested resource, node, ports and method if and only if the form at the click still shows what was approved; it may be older than the request |
| TransitCreateWitnesses.EditedFormExportsAnother | frontend/components/TransitRoutesPanel.tsx:1704-1720 | a run in which switching the method before the confirm click exports another route |
| TransitCreateTheorems.HistoryOnlyGrows | frontend/components/TransitRoutesPanel.tsx:1758-2076 | no event changes what a flow captured or already did; finished flows never change |
| TransitCreateRequests.SubmitStartsIff | frontend/components/TransitRoutesPanel.tsx:1465-1490 | a submit starts a flow if and only if the modal is open and idle or failed, the name is not blank, a resource and a node with a port can be had, the port text is a port no active or creating route of that resource uses, and the box is ticked; the flow holds what the page shows |
| TransitCreateRequests.ConfirmStartsIff | frontend/components/TransitRoutesPanel.tsx:3767-3774 | a confirm starts a flow, with the shown context, if and only if the confirm step shows with one and no execution is loading |
| TransitCreateRequests.FlowHoldsWhatWasShown | frontend/components/TransitRoutesPanel.tsx:1465-1471 | in every run, a flow holds what the page showed at its click: the resource and node the form named or the first offered, that node's own port and host, the port text read, and the names |
| TransitCreateRequests.RequestsNameTheCapture | frontend/components/TransitRoutesPanel.tsx:1805-2028 | in every run, each request names in its own fields the captured resource, node, listen port, target host, target port, method and names; an approval also its dry-run, a real execution the values approved |
| TransitCreateRequests.RequestsRepeatTheCheck | frontend/components/TransitRoutesPanel.tsx:1902-1940 | in every run, a socat create repeats the five values of the preflight that succeeded before it, a dry-run those of the readiness found ready, an approval request those of the dry-run that succeeded |
| TransitCreateRequests.LooksForIff | frontend/components/TransitRoutesPanel.tsx:1704-1720 | the route looked for has the captured resource, node, ports and method text, is active and not deleted |
| TransitCreatePage.UntypedNameIsSuggested | frontend/components/TransitRoutesPanel.tsx:3550-3590 | until a name is typed, the name is the suggested one for the method and port shown, whatever else is edited |
| TransitCreatePage.OpenShowsFreshForm | frontend/components/TransitRoutesPanel.tsx:1605-1623 | opening selects the drafted resource and node if they are offered, else the first offered ones, and shows nothing of an earlier run |
| TransitCreatePage.LoadedShows | frontend/components/TransitRoutesPanel.tsx:1432-1443 | after a load a list has exactly the fetched entries that are not deleted, routes also not pending; a list whose fetch failed stays |
| TransitCreatePage.RefreshShows | frontend/components/TransitRoutesPanel.tsx:1504-1536 | the load inside a flow shows the same |
| TransitCreatePage.RefreshShowsCreated | frontend/components/TransitRoutesPanel.tsx:1956-1963 | after the refresh the page shows the created route, and its link is asked for, if and only if such a route is in the list looked at, and it is the first |
| TransitCreatePage.ApprovalIsShown | frontend/components/TransitRoutesPanel.tsx:1885-1899 | a context is shown if and only if the final approval passed: that of its flow, with the captured ids |
| TransitCreatePage.StepsTellWhere | frontend/components/TransitRoutesPanel.tsx:1782-1985 | in every run, the step a flow wrote last tells where it stands; it completed if and only if it saw its link, and stopped at the confirm step if and only if its approval passed |
| TransitCreatePage.WrittenStepIsShown | frontend/components/TransitRoutesPanel.tsx:1782-1985 | the page shows the step a flow wrote last, whenever one writes |
| TransitCreateSafety.ProgressIndexIsPosition | frontend/components/TransitRoutesPanel.tsx:321-325 | the index used for progress is the position in the list the progress bar shows |
| TransitCreateSafety.AdvanceKeepsScript | frontend/components/TransitRoutesPanel.tsx:1800-1989 | whatever an await resumes with, a flow stays on its script of requests and observations, in order |
| TransitCreateSafety.RunKeeps | frontend/components/TransitRoutesPanel.tsx:1605-1642 | every run of opens, closes, edits, loads, submits, confirms and answers keeps the page invariant |
| TransitCreateModal.CreateRouteModal.Open | frontend/components/TransitRoutesPanel.tsx:1605-1623 | opening resets the form to the drafted or first selectable resource and node and clears every trace of an earlier run |
| TransitCreateModal.CreateRouteModal.Close | frontend/components/TransitRoutesPanel.tsx:1625-1638 | closing resets the form and clears the context and results; flows in flight stay |
| TransitCreateModal.CreateRouteModal.Submit | frontend/components/TransitRoutesPanel.tsx:1758-1793 | an enabled submit clears the page and starts one flow with the values the render captured; otherwise nothing changes |
| TransitCreateModal.CreateRouteModal.Confirm | frontend/components/TransitRoutesPanel.tsx:1991-2003 | an enabled confirm starts one flow with the held context, which stays in place: no flow was confirmed from it before, and one earlier flow dry-ran and got approved what it will ask for |
| TransitCreateModal.CreateRouteModal.LoadData | frontend/components/TransitRoutesPanel.tsx:1504-1536 | each list fetched is filtered by deletion and the live pending set; a failed fetch leaves its list |
| TransitCreateModal.CreateRouteModal.Resume | frontend/components/TransitRoutesPanel.tsx:1800-2076 | the handlers written out continuation by continuation, with their catch and finally, make the machine's step at every await; every request carries what the click captured, field by field, and repeats its check |
| TransitCreateModal.CreateRouteModal.Dispatch | frontend/components/TransitRoutesPanel.tsx:1605-2076 | every event keeps the page invariant: flows on their scripts, contexts approved, and the one shown unused |
| TransitCreateHandlers.SubmitSimplifiedTransitRouteCreate | frontend/components/TransitRoutesPanel.tsx:1758-1989 | the straight-line handler leaves the trail and steps the machine leaves when fed the same replies, and each of its requests carries the captured values, field by field, and repeats its check |
| TransitCreateHandlers.ConfirmHaproxyRealCreateFromModal | frontend/components/TransitRoutesPanel.tsx:1991-2076 | the same for the confirm handler and the approved values |
| TransitCreateHandlers.PrepareHaproxy | frontend/components/TransitRoutesPanel.tsx:1802-1900 | the same for the HAProxy branch from the readiness request on |
| TransitCreateHandlers.DryRunAndApprove | frontend/components/TransitRoutesPanel.tsx:1825-1900 | the same for dry-run, its wait and the final approval |
| TransitCreateHandlers.PreflightAndCreate | frontend/components/TransitRoutesPanel.tsx:1902-1957 | the same for the socat branch up to the create command |
| TransitCreateHandlers.FinishCreate | frontend/components/TransitRoutesPanel.tsx:1952-1985 | the same from the create command to the end |
| TransitCreateHandlers.FindAndExport | frontend/components/TransitRoutesPanel.tsx:1959-1982 | the same from the refreshed lists to the exported link |
| CommandWait.WaitForTransitCommandCompletion | frontend/components/TransitRoutesPanel.tsx:1677-1702 | at most 90 reads; it goes on exactly over commands that are not terminal and answers that say not found within thirty seconds, and ends at the first other read: with that terminal status, the unavailable notice, or that very error |
| CommandWait.NotFoundIff | frontend/components/TransitRoutesPanel.tsx:1661-1675 | an answer says not found if and only if its code is one of three words in any case, its message or its detail says so, or the phrase is split by the space between them |
| CommandWait.NotFoundsAreEarlyAndFew | frontend/components/TransitRoutesPanel.tsx:1678-1686 | when each sleep takes its two seconds, at most 15 not-found answers are absorbed, all among the first 15 reads |
| CommandWait.FifteenNotFoundsHappen | frontend/components/TransitRoutesPanel.tsx:276 | the bound is tight |
| CommandWait.FlowWaitsLikeTheLoop | frontend/components/TransitRoutesPanel.tsx:1677-1702 | the create machine fed read by read ends where the loop ends and writes the running step once per absorbed read |
| DeletionPanel.VisibleHasWhole | frontend/components/ServerManagementPanel.tsx:503-512 | a filtered list has an entry if and only if it is not pending and the list has it undeleted |
| DeletionPanel.VisibleHasNode | frontend/components/ServerManagementPanel.tsx:507-511 | the same for child nodes, under an entry that shows |
| DeletionPanel.VisibleHoldsEntries | frontend/components/ServerManagementPanel.tsx:503-512 | a filtered list holds entries as they were fetched, servers without their pending and deleted nodes |
| DeletionPanel.NothingHiddenShows | frontend/components/ServerManagementPanel.tsx:503-539 | in every run of loads, polls, renames, deletes and releases, nothing pending or deleted shows, and no pending entry is polled |
| DeletionTheorems.PendingChangesExactly | frontend/components/ServerManagementPanel.tsx:1676-1721 | after any event a target is pending if and only if it was just submitted, or it was pending and none of its deletes just gave up |
| DeletionTheorems.ReleasedIffAnswered | frontend/components/ServerManagementPanel.tsx:906-956 | a delete released its target if and only if an answer before the polls was a refusal or exception, or its cleanup ended otherwise than succeeded; it polls if and only if it was accepted with a command and its reload finished, then up to the first poll that ends the wait, 30 at most, and a finished delete has polled just so |
| DeletionTheorems.ThrownReloadNeverPolls | frontend/components/ServerManagementPanel.tsx:1710-1717 | in every run, a delete whose reload threw first gave its target back and never polls |
| DeletionTheorems.AcceptedDeleteComesBack | frontend/components/ServerManagementPanel.tsx:1710-1717 | an accepted delete whose reload throws, ending with the target not pending and no poll |
| DeletionTheorems.PendingIffStands | frontend/components/ServerManagementPanel.tsx:1676-1721 | in every run, a target is pending if and only if some event submitted a delete of it and no later event gave one up |
| DeletionTheorems.LastDeleteDecides | frontend/components/TransitRoutesPanel.tsx:2183-2228 | in every run, however often a target was deleted, it is pending if and only if no answer to its last delete releases it; success, lost polls and running out of polls leave it hidden |
| DeletionTheorems.OnlyLastGivesUp | frontend/components/ServerManagementPanel.tsx:2192-2209 | in every run, a delete that gives its target back is the last one of that target: the lock and the dialog keep an older delete from showing what a newer one hid |
| DeletionTheorems.HiddenWhileItStands | frontend/components/TransitRoutesPanel.tsx:1002-1045 | from the submit of its delete until a delete of it gives up, a target does not show, whatever was loaded since |
| DeletionTheorems.RetriedDeleteHides | frontend/components/ServerManagementPanel.tsx:1690-1702 | a run in which a refused delete is submitted again and hides its target again |
| DeletionTheorems.LoadShowsIff | frontend/components/ServerManagementPanel.tsx:549-567 | the next load shows a target if and only if it is not pending and the list has it undeleted |
| DeletionTheorems.ShownChangesExactly | frontend/components/ServerManagementPanel.tsx:503-539 | in every run and after every event: a list write shows exactly what the list has live and is not pending, a delete that starts hides exactly its target, nothing else changes what shows |
| DeletionTheorems.ReloadShowsIff | frontend/components/ServerManagementPanel.tsx:1692-1717 | in every run, a list fetched inside a delete, at any of its four reloads, shows a target if and only if no last delete of it stands and the list has it live |
| DeletionTheorems.FailedCleanupShowsAgain | frontend/components/ServerManagementPanel.tsx:927-950 | in every run, a target released by its failed cleanup shows after the reload that follows if and only if the list has it live |
| DeletionTheorems.LockedUntilReloaded | frontend/components/ServerManagementPanel.tsx:1683-1719 | the delete button is locked while some delete has not ended the reload after its answer |
| DeletionTheorems.AnswersMoveOn | frontend/components/ServerManagementPanel.tsx:906-956 | every answer but a list moves a delete on, so that it ends after at most 34 of them |
| DeletionTheorems.OnlyLoadsShowMore | frontend/components/TransitRoutesPanel.tsx:594-617 | no event but a list load makes anything appear |
| ManagementPanel.Panel.MarkPendingDelete | frontend/components/ServerManagementPanel.tsx:520-535 | marking hides the target at once and ends the heartbeat polling of a marked entry |
| ManagementPanel.Panel.ReleasePendingDelete | frontend/components/ServerManagementPanel.tsx:528-530 | releasing changes the pending set only |
| ManagementPanel.Panel.RenameRoute | frontend/components/TransitRoutesPanel.tsx:2153 | a rename changes the name of that route in the shown list and nothing else |
| ManagementPanel.Panel.StartWorkerInstallPolling | frontend/components/ServerManagementPanel.tsx:656-670 | polling of a pending entry ends before its first fetch |
| ManagementPanel.Panel.RefreshWhenCleanupCommandCompletes | frontend/components/ServerManagementPanel.tsx:906-956 | at most 30 polls, up to the first that ends the wait; the target is released exactly for a terminal status other than succeeded; a throwing poll changes nothing, and the reload after the polls writes a list only if it fetched one |
| ManagementPanel.MachinePollsLikeTheLoop | frontend/components/ServerManagementPanel.tsx:906-956 | the deletion machine fed poll by poll ends where the loop ends: after the same polls, with the target released for a failed cleanup only |
| ManagementPanel.Panel.SubmitDeleteToEnd | frontend/components/ServerManagementPanel.tsx:1676-1721 | a delete run to its end leaves its target hidden if and only if it was taken, its reload did not throw and the cleanup did not fail; the dialog closes exactly when it was taken |
| ManagementPanel.Panel.OpenDelete | frontend/components/ServerManagementPanel.tsx:744-755 | the delete button of a listed entry opens the dialog on a target that is not pending |
| ManagementPanel.Panel.SubmitDelete | frontend/components/ServerManagementPanel.tsx:1676-1683 | an enabled delete click hides the target and takes the lock before its first await; any other click changes nothing |
| ManagementPanel.Panel.ResumeDelete | frontend/components/TransitRoutesPanel.tsx:1002-1045 | the handler written out continuation by continuation makes the machine's step; a target stays pending unless this delete is its own and gives up; a fetched list shows exactly what it has live and is not pending, and any other answer leaves what shows |
| DirectNodeTheorems.CreateRequestIsPlanned | frontend/components/ProductDemoModals.tsx:978-1048 | in every run, a create request uses the server and port of a held, ready, unblocked plan, and the SNI, dest and fingerprint that plan was requested with; all eight boxes ticked then and now, no field edited since; the confirm text was typed after the last edit if and only if no field was edited after a plan success without data that came since it was typed |
| DirectNodePage.RequestsCarryWhatWasShown | frontend/components/ProductDemoModals.tsx:873-1032 | in every run, what a plan or create request carries is what the page showed at its click: the selected online server, the trimmed name or the server's name with its suffix, the port read, the trimmed Reality values and the boxes |
| DirectNodePage.PlanStartsIff | frontend/components/ProductDemoModals.tsx:875-930 | a plan click starts a handler if and only if the modal is mounted without lock or result, a server is online, the port is unreserved, the Reality texts are not blank and all eight boxes are ticked |
| DirectNodePage.CreateStartsIff | frontend/components/ProductDemoModals.tsx:881-1013 | a create click starts a handler if and only if moreover the held plan is ready and unblocked, for the selected server and the port shown, and the confirm text is typed |
| DirectNodePage.ChangeDropsPlan | frontend/components/ProductDemoModals.tsx:894-902 | an edit through an enabled input drops a held plan with the confirm text and goes back to step 1; without a plan it writes the form alone |
| DirectNodePage.SettleSelectsOnline | frontend/components/ProductDemoModals.tsx:867-873 | a selection that is not online moves to the first online server, and nothing else changes |
| DirectNodePage.UnmountedWritesAreLost | frontend/components/ProductDemoModals.tsx:904-909 | after an unmount no answer changes what the modal held |
| DirectNodeTheorems.NothingAfterAcceptedCreate | frontend/components/ProductDemoModals.tsx:880-892 | in every run, a create accepted with data is the last act of its session: no later request is sent, nothing is accepted after it, and the mounted modal offers nothing |
| DirectNodeTheorems.AcceptedReopensIff | frontend/components/ProductDemoModals.tsx:1035-1048 | once an accepted create has completed, the create button is enabled again if and only if the answer had no data and the button would be enabled without the lock |
| DirectNodeWitness.TwoCreatesMayBeAccepted | frontend/components/ProductDemoModals.tsx:1039-1040 | a run in which two creates are accepted, the first without data |
| DirectNodeTheorems.StepFitsNextIff | frontend/components/ProductDemoModals.tsx:853-976 | the step fits the results after an event (0 or 1 without any, 3 or 2 with a plan, 5 with a create) if and only if, for a plan, it is not a ready one without its list or the step was 3; for a plan success without data, the step was 0 or 1; for a create success, it has data; for any other event, the step fitted before or a change of the form dropped a held plan |
| DirectNodeTheorems.AnswersKeepStepIff | frontend/components/ProductDemoModals.tsx:963-976 | in every run, while the step fits: a plan keeps it so if and only if its list is there or the held plan counts as ready too, a plan success without data if and only if no plan was held, a create success if and only if it has data |
| DirectNodeTheorems.WholeAnswersFit | frontend/components/ProductDemoModals.tsx:853-1048 | in every run whose answers have their data and their list, the step fits the results and no plan is lost, so that every confirm text of a create was typed after the last edit |
| DirectNodeWitness.StepMayNotFit | frontend/components/ProductDemoModals.tsx:963-965 | a run whose mounted modal holds a ready plan without its list at a step that does not fit |
| DirectNodeWitness.OldTextMayCreate | frontend/components/ProductDemoModals.tsx:894-902 | a run that sends a create whose confirm text was typed before the last edit |
| DirectNodeTheorems.RunKeeps | frontend/components/ProductDemoModals.tsx:853-1048 | every run keeps: one handler at a time, the held plan was requested with what the form holds, only edits after a plan success without data are later than a standing confirm text, and a create accepted with data is the last act |
| DirectNodeModal.CreateDirectNodeModal.MarkConfigDirty | frontend/components/ProductDemoModals.tsx:894-902 | a change with a plan or create held drops both, the confirm text, and goes back to step 1 |
| DirectNodeModal.CreateDirectNodeModal.ChangeConfig | frontend/components/ProductDemoModals.tsx:1064-1172 | an enabled input changes its field and marks the configuration dirty; a disabled one changes nothing |
| DirectNodeModal.CreateDirectNodeModal.KeepSelectionOnline | frontend/components/ProductDemoModals.tsx:867-871 | a selection that is not online moves to the first online server, marking nothing dirty |
| DirectNodeModal.CreateDirectNodeModal.HandlePlan | frontend/components/ProductDemoModals.tsx:911-930 | an enabled plan click takes the lock and starts one handler with the captured values |
| DirectNodeModal.CreateDirectNodeModal.HandleCreate | frontend/components/ProductDemoModals.tsx:978-1013 | an enabled create click takes the lock and starts one handler, and that create repeats a held plan, ready and unblocked, with the values it was requested with and all boxes ticked; its confirm text is newer than the last edit if and only if no field was edited after a plan success without data that came since |
| DirectNodeModal.CreateDirectNodeModal.CloseModal | frontend/components/ProductDemoModals.tsx:904-909 | closing drops plan, result and confirm text and unmounts |
| DirectNodeModal.CreateDirectNodeModal.ResumeHandler | frontend/components/ProductDemoModals.tsx:930-1048 | the handlers written out continuation by continuation, success answers without data included, make the machine's step; after an unmount only their requests go on |
| DirectNodeModal.CreateDirectNodeModal.Dispatch | frontend/components/ProductDemoModals.tsx:853-1048 | every event, whatever the answers lack, keeps the session invariant, through the render that follows it |
| LandingCreateTheorems.CreateFollowsPreflightAndPlan | frontend/components/ServerManagementPanel.tsx:1209-1347 | in every run, a create request follows a succeeded preflight and a ready plan of the same flow, repeats the captured server, port, Reality values and name, with an allowed port and the firewall box ticked after the last port edit |
| LandingCreateTheorems.ProgressRises | frontend/components/ServerManagementPanel.tsx:1239-1347 | the steps a flow writes never go back, and it writes the complete step only at its end, after its create command was seen succeeded and then its node |
| LandingCreateTheorems.CaptureStays | frontend/components/ServerManagementPanel.tsx:1209-1347 | no edit, open, close or other handler changes what a flow captured |
| LandingCreatePage.SubmitStartsIff | frontend/components/ServerManagementPanel.tsx:1209-1237 | a submit starts a flow if and only if its button is enabled and the handler's checks pass; the flow holds the selected server's id and Worker and the form's name, SNI, dest, fingerprint and tick |
| LandingCreatePage.FlowHoldsWhatWasShown | frontend/components/ServerManagementPanel.tsx:1209-1237 | in every run, a flow holds what the page showed at its click |
| LandingCreatePage.RequestsNameTheCapture | frontend/components/ServerManagementPanel.tsx:1241-1318 | in every run, each preflight, plan and create request names in its own fields the captured server, Worker, port, name, SNI, dest, fingerprint and confirmation |
| LandingCreatePage.RefreshReportsNode | frontend/components/ServerManagementPanel.tsx:1204-1207 | after the refresh the page reports the first linked node of the captured server on the captured port, and none if and only if the list has none |
| LandingCreatePage.StepsTellWhere | frontend/components/ServerManagementPanel.tsx:1239-1346 | in every run, the step a flow wrote last tells where it stands |
| LandingCreatePage.EndsWaitIff | frontend/components/ServerManagementPanel.tsx:1157-1178 | a read ends the wait if and only if the first command of this id in the list has a terminal status |
| LandingCreate.NameFollowsPort | frontend/components/ServerManagementPanel.tsx:2252-2263 | closed form of the name after any port edits: the default name of the last port if it was blank or the default of a port shown before the last edit, untouched otherwise |
| LandingHandlers.WaitForWorkerCommandCompletion | frontend/components/ServerManagementPanel.tsx:1157-1178 | at most 90 reads, each that goes on writes the running step, and the first terminal status listed is returned; an error answer ends it |
| LandingHandlers.SubmitSimplifiedLandingNodeCreate | frontend/components/ServerManagementPanel.tsx:1209-1347 | the straight-line handler leaves the trail and steps the machine leaves when fed the same replies, and each of its requests names what was captured |
| LandingNodeModal.NodeCreateModal.OpenNodePlan | frontend/components/ServerManagementPanel.tsx:757-767 | opening selects the server and resets the form, unconfirmed |
| LandingNodeModal.NodeCreateModal.ChangeForm | frontend/components/ServerManagementPanel.tsx:2417-2484 | an edit changes its field; a port edit unticks the firewall box |
| LandingNodeModal.NodeCreateModal.SubmitSimplifiedLandingNodeCreate | frontend/components/ServerManagementPanel.tsx:1209-1237 | a submit that passes the checks starts one flow that holds the selected server and what the form shows, with an allowed port, and the firewall box ticked after the last port edit; otherwise nothing changes |
| LandingNodeModal.NodeCreateModal.ResumeFlow | frontend/components/ServerManagementPanel.tsx:1239-1347 | the handler written out continuation by continuation, with its catch and finally, makes the machine's step at every await; every request names what the click captured |
| LandingNodeModal.NodeCreateModal.Dispatch | frontend/components/ServerManagementPanel.tsx:1209-1347 | every event keeps the page invariant: flows on their script, steps rising, the box ticked after the port |
| TaskRedaction.SanitizePresentable | frontend/components/TaskHistoryPanel.tsx:106-149 | no emitted text holds a link or private key, also across the cut; values under secret keys are replaced; texts other than the count notice have at most 180 characters, arrays 9 entries, containers nest 4 deep |
| TaskRedaction.SanitizeBecomes | frontend/components/TaskHistoryPanel.tsx:106-149 | at every depth: a value under a secret key becomes the notice, a null, undefined, number or boolean stays, a text is replaced or cut as its content says, a container below the fourth level becomes the truncation notice, and of every other container each visible entry and member is related again |
| TaskRedaction.PlainLeafIsItsOwn | frontend/components/TaskHistoryPanel.tsx:120-131 | a null, undefined, number or boolean shows only where the task sent that value under a key that is not secret |
| TaskRedaction.RedactStringSafeAndStable | frontend/components/TaskHistoryPanel.tsx:106-118 | a redacted text is safe and short, and redacting it again changes nothing |
| TaskRedaction.SafeShortTextKept | frontend/components/TaskHistoryPanel.tsx:106-118 | a text is kept as it is if and only if it is safe and short |
| TaskRedaction.LinkNoticeNamesLeftmost | frontend/components/TaskHistoryPanel.tsx:106-118 | the notice for a link names the protocol of the leftmost link |
| TaskRedaction.SanitizeIdempotentIffShort | frontend/components/TaskHistoryPanel.tsx:120-149 | sanitizing is idempotent on a value if and only if every array it enters has at most nine entries |
| TaskRedaction.SanitizeSettlesAfterTwo | frontend/components/TaskHistoryPanel.tsx:120-149 | a third pass never changes what two passes left |
| TaskRedaction.SanitizeKeepsExactlyUnobjectionable | frontend/components/TaskHistoryPanel.tsx:120-149 | a value is kept unchanged if and only if nothing in it is objectionable |
| TaskRedaction.SanitizeKeepsKeys | frontend/components/TaskHistoryPanel.tsx:140-147 | an object that is entered keeps its keys, in order |
| TaskRedaction.TenEntriesNeedTwoPasses | frontend/components/TaskHistoryPanel.tsx:131-138 | an array on which two passes differ from one |
| DebugRedaction.RedactDebugJson | frontend/components/AdvancedHaproxyDebugPanel.tsx:367-407 | the recursive loop that fills the result key by key computes the redaction function |
| DebugRedaction.RedactPresentable | frontend/components/AdvancedHaproxyDebugPanel.tsx:367-407 | no emitted text holds a vless link, and values under share-link or secret keys are replaced, at any depth |
| DebugRedaction.RedactBecomes | frontend/components/AdvancedHaproxyDebugPanel.tsx:367-407 | at every depth: which notice replaces a link, a long text with a secret, a share link or a secret value, and that everything else is kept or related again, member by member without the prototype key |
| DebugRedaction.RedactKeepsExactlyPresentable | frontend/components/AdvancedHaproxyDebugPanel.tsx:367-407 | a value is kept unchanged if and only if it is presentable |
| DebugRedaction.RedactIdempotent | frontend/components/AdvancedHaproxyDebugPanel.tsx:367-407 | redacting twice is redacting once |
| DebugRedaction.RedactKeepsShape | frontend/components/AdvancedHaproxyDebugPanel.tsx:367-407 | at any depth the result has the array lengths and keys of the value, in every array and object entered, if and only if no object entered has a prototype key |
| DebugRedaction.ProtoMemberIsLost | frontend/components/AdvancedHaproxyDebugPanel.tsx:386-405 | an object that loses a member |
| DebugForm.ValidateForm | frontend/components/AdvancedHaproxyDebugPanel.tsx:4128-4163 | each error is listed if and only if its own field or check fails, once and in order; the list is empty if and only if a payload is built and the forwarding method is the typed one |
| DebugForm.CheckersAgree | frontend/components/AdvancedHaproxyDebugPanel.tsx:4055-4102 | on every form, there is no error if and only if there is a payload and the forwarding method is the one its type allows |
| DebugForm.PayloadCarriesForm | frontend/components/AdvancedHaproxyDebugPanel.tsx:4055-4102 | each text of a payload is the trimmed form field of its name and each port what the transit reader makes of its own field; there is a payload if and only if nothing required is blank, the ports are printed, the name is safe and all is confirmed |
| DebugForm.SafeRouteNameIff | frontend/components/AdvancedHaproxyDebugPanel.tsx:355-357 | a route name is safe if and only if, trimmed, it is a letter or digit and at most 119 more letters, digits, dots, underscores or hyphens |
| DebugForm.RefillRebuilds | frontend/components/AdvancedHaproxyDebugPanel.tsx:2118-2132 | a form refilled from a payload, ports in decimal, rebuilds that payload without errors |
| DebugForm.CandidateFormIsReadyIff | frontend/components/AdvancedHaproxyDebugPanel.tsx:2102-2132 | a form filled from a dry-run candidate and fully confirmed yields a payload if and only if the candidate's own values are well formed, and then names the candidate's id, resource, node, host, both ports, names and texts |
| Ports.DebugReaderIsCanonicalTransitReader | frontend/components/AdvancedHaproxyDebugPanel.tsx:359-365 | the debug reader accepts a text as a port if and only if the transit reader does and the trimmed text has no leading zero |
| Ports.DirectNodeCheckIsUnreservedTransitReader | frontend/components/ProductDemoModals.tsx:714-726 | the direct-node check passes if and only if the transit reader gives an unreserved port, and `Number` is that port |
| Ports.DirectNodeErrorIff | frontend/components/ProductDemoModals.tsx:714-726 | which error the direct-node check shows: not digits, out of range, or reserved |
| Ports.ParseIntReadsRun | frontend/components/AdvancedHaproxyDebugPanel.tsx:359-365 | after white space and one sign the longest run of digits is read and the rest ignored |
| Ports.PrintedPortReadsBack | frontend/components/TransitRoutesPanel.tsx:508-515 | every reader gives a port back from its decimal text |
| ResourcePlans.BuildRebuildPlan | frontend/components/AdvancedHaproxyDebugPanel.tsx:420-584 | the pushes give an action exactly for each group with a failed danger check, once and in the fixed order, the review action alone for failures outside every group, and the stage that follows |
| ResourcePlans.BuildRegistrationPlan | frontend/components/AdvancedHaproxyDebugPanel.tsx:636-908 | for the rebuild plan of the same candidate, the pushes give a section exactly for each matching action, once and in the fixed order, and a stage that differs in kind only in the worker-only case |
| ResourcePlans.RebuildPlanMeaning | frontend/components/AdvancedHaproxyDebugPanel.tsx:420-584 | no action is required if and only if no danger check failed, and an action is there if and only if a check of its group failed |
| ResourcePlans.PlansAgree | frontend/components/AdvancedHaproxyDebugPanel.tsx:636-908 | a registration section is there if and only if its rebuild action is; the recommended stages differ in kind if and only if the candidate is not ready and there is a worker action without resource and node actions |

## Left out

- Display: JSX, labels, messages and error texts, QR codes, clipboard, dates, and the state fields that only
  display (`createCommand`, `createExecuteResult`, `createError`, `nodeCreateCommand`, loading and message
  fields).
- The server and Worker: every answer is arbitrary, nothing is assumed of an approval beyond its fields.
- Constant fields of requests (stage names, fixed confirmations, approval texts) are not part of the request
  values.
- The two seconds of sleep before a read and the read itself are one await; the clock enters `CommandWait`
  only.
- Strings are sequences of `char`, not UTF-16 units, so lengths and cuts count characters; case folding covers
  ASCII letters. The regular expressions are modelled as the texts they match.
- `Number(...)` on a text that is not a run of digits: the landing-node submit takes any integer or none for
  it, the direct-node modal reports such a text as an error before using it.
- The hidden advanced section of the routes page and its separate readiness, dry-run and execution handlers:
  the same shape as the modal flow.
- Heartbeat polling beyond its head check: its fetch is a list load, its end a stop event; attempts and
  versions are not counted.
- Switching a refused delete to offline removal, the Worker command lists, scheduled extra reloads (they are
  list loads), and the other handlers of the server page, which enter the landing flow only through the
  `submitting` flag. In the deletion machine they could only keep the delete button locked longer.
- The other fields of a direct-node plan and of a create result (warnings, confirmations, safety boundary) are
  taken as present; without one of them the summary cannot be rendered either.
- The plan builders without a chosen candidate, their texts, the registration forms of the debug panel, and
  its stale readiness result.
- DebugRedaction.RedactPresentable: for JSON data, `undefined` included; a symbol or bigint, which no response
  holds, is printed as its text. The same holds of the other `DebugRedaction` lemmas.
- TransitCreateHandlers.SubmitSimplifiedTransitRouteCreate: speaks of the handler running alone; the
  interleavings are those of the machine.
- LandingHandlers.SubmitSimplifiedLandingNodeCreate: speaks of the handler running alone as well.
