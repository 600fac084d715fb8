# decklab UI core in Dafny

A model of the logic inside decklab's web front end (`services/ui`), with
proofs about it. There is one Dafny module per source file:

- **SlideEditor** (`components/SlideEditor.tsx`): the live-preview compile
  effect.
  - Blank code goes idle.
  - Any other code bumps `compileCounter`, goes to compiling and arms a
    200 ms timer.
  - A task commits ready or error only while it is not cancelled and its id
    equals the counter.
  - The previous run's cleanup cancels it and clears its timer.

  Timers and promises become explicit events: `Edit`, `Cleanup`, `Fire` and
  `Complete`. The outcome of esbuild plus `new Function` is an oracle with
  four cases. Each event is a pure `Step` on an `Editor` value, which the
  trace lemmas use. It is also a method of the class `LivePreview`, whose
  fields are the component's state and refs and which ends in exactly that
  `Step`. The module also covers the status label and tone, what the stage
  shows in each state, and the two drag clamps (class `SplitLayout`).
  "Blank" means what `String.prototype.trim` strips: the WhiteSpace and
  LineTerminator code points of ECMA-262, sections 12.2 and 12.3.
- **EsbuildHost** (`hooks/useEsbuild.ts`): the module-wide `esbuildReady`
  flag and the recorded init promise. They are a pure `Host` value with
  `Ensure`/`Settle` events, and the class `Bootstrapper` updates them in
  place. Promises are named by the index of the `initialize` call that
  created them.
- **Alerts** (`hooks/useAlerts.tsx`): the provider's alert list.
  - `showAlert` appends. Alert ids come from `Math.random`, so they are
    parameters here.
  - `removeAlert` and the 5 s auto-dismiss filter by id.
  - The toast/modal views partition the list.
  - Also modelled: the `useAlert` guard and the icon and colour tables.
- **LandingPage** (`pages/LandingPage.tsx`):
  - the intersection-observer reducer, as a method with the source's loop
    and `changed` flag;
  - `registerSectionRef` and the observer's watch list (class
    `SectionRegistry`);
  - `sectionPresentation` and the "Choose plan" links.
- **RegisterPage** (`pages/RegisterPage.tsx`): plan-parameter validation,
  `requiresPayment`, the card fields, the submit label, plan selection and
  submit. Submit raises a modal warning through `Alerts.AlertProvider`.

`Wrappers` holds `Option` and `Result`.

## Model

| member | source | states |
|---|---|---|
| `SlideEditor.TrimStart` | services/ui/src/components/SlideEditor.tsx:54 | The result is empty, or starts with a non-white-space character. It is empty exactly when the code is blank. `TrimStartIsSuffix` states what it is. |
| `SlideEditor.TrimStartIsSuffix` | services/ui/src/components/SlideEditor.tsx:54 | Trimming the start removes a blank prefix and leaves the rest of the code as it was. |
| `SlideEditor.TrimEnd` | services/ui/src/components/SlideEditor.tsx:54 | The result is empty exactly when its input is blank. Otherwise it ends with a non-white-space character and keeps the input's first character. `TrimEndIsPrefix` states what it is. |
| `SlideEditor.TrimEndIsPrefix` | services/ui/src/components/SlideEditor.tsx:54 | Trimming the end removes a blank suffix and leaves the rest of the code as it was. |
| `SlideEditor.Trim` | services/ui/src/components/SlideEditor.tsx:54 | `code.trim()` is no longer than the code. It is empty, or it starts and ends with a character that is not white space or a line terminator. `TrimIsInfix` states what it is. |
| `SlideEditor.TrimIsInfix` | services/ui/src/components/SlideEditor.tsx:54 | `code.trim()` is a slice of the code whose prefix before it and suffix after it are blank. Together with `Trim`'s ends, this is the code with its leading and trailing white space removed. |
| `SlideEditor.TrimEmptyIffBlank` | services/ui/src/components/SlideEditor.tsx:54-56 | The effect's `!trimmed` test holds exactly for code made only of ECMA-262 white space and line terminators. |
| `SlideEditor.RunCleanup` | services/ui/src/components/SlideEditor.tsx:106-109 | The mounted run's task is marked cancelled and its timer cleared, so it can no longer fire. Nothing is mounted afterwards. View, counter, started pipelines and every other task are unchanged. |
| `SlideEditor.OnEdit` | services/ui/src/components/SlideEditor.tsx:52-65 | Blank code gives idle with no message and no component, leaves the counter alone and creates no task. Other code raises the counter by exactly one, gives compiling with no message, keeps the stored component, and adds an armed, uncancelled task for that code under the new counter value. No pipeline starts during an edit. |
| `SlideEditor.OnFire` | services/ui/src/components/SlideEditor.tsx:67-71 | When an armed timer fires, its pipeline starts on the code the task captured. The task becomes running, and the view, counter and mounted run are unchanged. A cleared, fired or unknown timer changes nothing. |
| `SlideEditor.Commit` | services/ui/src/components/SlideEditor.tsx:83-103 | The commit sets ready exactly for a function export, storing that component. Every other outcome sets error and clears the component. A non-function export stores the fixed message; a thrown error stores its own message. Counter, tasks and pipelines are untouched. |
| `SlideEditor.OnComplete` | services/ui/src/components/SlideEditor.tsx:79-103 | A running task settles. The view changes only if the task is uncancelled and its id equals the counter, and then it becomes the commit of the outcome. Counter, mounted run and pipelines are unchanged. A task that is not running changes nothing. |
| `SlideEditor.InitialValid` | services/ui/src/components/SlideEditor.tsx:33-37 | The initial editor (idle, no message, no component, counter 0) satisfies the invariant. |
| `SlideEditor.StepValid` | services/ui/src/components/SlideEditor.tsx:52-110 | Every event preserves the invariant. The invariant says: task ids lie in 1..counter; only the mounted run's task is uncancelled; an armed task is uncancelled; a live task means compiling; idle, ready and error carry the expected message and component. |
| `SlideEditor.RunValid` | services/ui/src/components/SlideEditor.tsx:52-110 | Every trace of events preserves the invariant. |
| `SlideEditor.OnlyMountedTaskCommits` | services/ui/src/components/SlideEditor.tsx:79-99 | Only an edit, or the completion of the mounted task whose id equals the counter, changes state, message or component. |
| `SlideEditor.SupersededCompletionIsSilent` | services/ui/src/components/SlideEditor.tsx:79-99 | A cancelled task's completion leaves state, message and component unchanged, on the success path and on the failure path alike. |
| `SlideEditor.StaysSuperseded` | services/ui/src/components/SlideEditor.tsx:106-109 | A cancelled task stays cancelled after any further events. |
| `SlideEditor.EditOrCleanupSupersedes` | services/ui/src/components/SlideEditor.tsx:106-109 | Every edit, including a blank one that leaves the counter unchanged, cancels every existing task. So does every unmount cleanup. |
| `SlideEditor.SupersededSilentAt` | services/ui/src/components/SlideEditor.tsx:79-99 | A cancelled task's completion at any position of a trace leaves the view unchanged. |
| `SlideEditor.LastRequestWins` | services/ui/src/components/SlideEditor.tsx:63-109 | Suppose an edit or cleanup happens at position j of a trace. Then no task that existed before j changes the view at any later position, however late its pipeline settles. |
| `SlideEditor.OutOfOrderCompletion` | services/ui/src/components/SlideEditor.tsx:63-99 | One trace from a fresh editor: non-blank edit A, A's timer, non-blank edit B, B's timer, then B's pipeline and A's pipeline complete in that order, both default-exporting a function. The final view is ready with B's component. `LastRequestWins` states the general ordering guarantee. |
| `SlideEditor.CurrentTaskCommits` | services/ui/src/components/SlideEditor.tsx:83-103 | When the current task completes: a function export gives ready with that component and no message. A non-function export gives error with exactly "Expected the snippet to default-export a React component." and no component. A transform or evaluation failure gives error with its message and no component. |
| `SlideEditor.EditsCoalesce` | services/ui/src/components/SlideEditor.tsx:63-108 | A burst of edits inside the quiet period starts no pipeline. Afterwards the only armed timer is the last edit's, holding its code, and there is none when that code is blank. |
| `SlideEditor.FireStartsMountedTaskOnly` | services/ui/src/components/SlideEditor.tsx:67-71 | In every reachable state, a fire that starts a pipeline belongs to the mounted run, whose id is the counter. It starts that pipeline on the run's code. |
| `SlideEditor.StatusLabel` | services/ui/src/components/SlideEditor.tsx:112-123 | The labels "Compiling…", "Live", "Error" and "Idle" each name exactly one state: compiling, ready, error and idle. |
| `SlideEditor.StatusTone` | services/ui/src/components/SlideEditor.tsx:125-136 | The chip's tone pulses exactly while compiling. |
| `SlideEditor.StatusChipDistinguishesStates` | services/ui/src/components/SlideEditor.tsx:112-136 | The status label and the tone are different for each of the four states. |
| `SlideEditor.StageOf` | services/ui/src/components/SlideEditor.tsx:357-376 | The stage renders a component exactly when the state is ready and a component is stored, and then renders that component. The failure panel appears exactly in the error state. |
| `SlideEditor.StageShowsComponentOnlyWhenReady` | services/ui/src/components/SlideEditor.tsx:357-376 | In every reachable state, the compiled component is on stage exactly when the state is ready. An error always shows its message. |
| `SlideEditor.Clamp` | services/ui/src/components/SlideEditor.tsx:156 | `Math.max(lo, Math.min(hi, x))` lies in [lo, hi]. It equals x inside the bounds and the nearer bound outside them. |
| `SlideEditor.SplitLayout.constructor` | services/ui/src/components/SlideEditor.tsx:38-39 | The initial 45 and 65 lie inside the drag bounds. |
| `SlideEditor.SplitLayout.MoveHorizontal` | services/ui/src/components/SlideEditor.tsx:152-158 | The sidebar width becomes the proposal clamped to [25, 75], and the editor share is unchanged. |
| `SlideEditor.SplitLayout.MoveVertical` | services/ui/src/components/SlideEditor.tsx:186-191 | The editor share becomes the proposal clamped to [30, 85], and the sidebar width is unchanged. |
| `SlideEditor.LivePreview.constructor` | services/ui/src/components/SlideEditor.tsx:33-37 | A new editor is idle, with no message, no component, counter 0 and no tasks. |
| `SlideEditor.LivePreview.Cleanup` | services/ui/src/components/SlideEditor.tsx:106-109 | Updating in place gives exactly the `Cleanup` step. |
| `SlideEditor.LivePreview.Edit` | services/ui/src/components/SlideEditor.tsx:52-65 | The method runs the previous cleanup, then the effect, in place. The result is exactly the `Edit` step, with the blank and non-blank outcomes spelled out. |
| `SlideEditor.LivePreview.FireTimer` | services/ui/src/components/SlideEditor.tsx:67-71 | An armed timer fires: exactly the `Fire` step, and the task's code is appended to the started pipelines. |
| `SlideEditor.LivePreview.Complete` | services/ui/src/components/SlideEditor.tsx:79-103 | A running pipeline settles: exactly the `Complete` step. A cancelled or out-of-date task leaves state, message and component untouched. |
| `EsbuildHost.StepValid` | services/ui/src/hooks/useEsbuild.ts:15-36 | Every call and settle preserves the invariant. A recorded promise belongs to the latest `initialize` call, and a ready host keeps its promise recorded. |
| `EsbuildHost.ResolveUrl` | services/ui/src/hooks/useEsbuild.ts:14 | An editor's own `wasmURL` is used when it is given. Otherwise the default unpkg URL of esbuild-wasm 0.23.1 is used. |
| `EsbuildHost.EnsureReady` | services/ui/src/hooks/useEsbuild.ts:15-36 | A call never changes readiness, and it returns at once exactly when ready. Otherwise the caller awaits the promise that is then recorded. While a promise is recorded, the host is unchanged. Without one, a single `initialize` with this caller's URL is appended. |
| `EsbuildHost.SettleInit` | services/ui/src/hooks/useEsbuild.ts:26-32 | No `initialize` call is made. The host becomes ready exactly when it already was, or when a pending attempt succeeds. A failed pending attempt clears the record. A kept record is the same promise, and with nothing pending nothing changes. |
| `EsbuildHost.ReadyReturnsAtOnce` | services/ui/src/hooks/useEsbuild.ts:16-18 | When ready, `ensureEsbuild` returns at once and changes nothing. In particular it does not call `initialize`. |
| `EsbuildHost.InitializeOnlyWithoutPromise` | services/ui/src/hooks/useEsbuild.ts:20-35 | `initialize` is called, with this caller's URL, exactly when the host is neither ready nor holding a promise. While a promise is recorded, the call changes nothing and awaits that very promise. A caller that is not ready always awaits the latest call's promise. |
| `EsbuildHost.ConcurrentCallersShare` | services/ui/src/hooks/useEsbuild.ts:20-35 | Two callers before readiness await the same promise, and the second leaves the host unchanged. At most one `initialize` runs, and it uses the first caller's URL. |
| `EsbuildHost.FailureAllowsRetry` | services/ui/src/hooks/useEsbuild.ts:29-32 | A failure clears the record and does not set ready. The next caller starts a fresh `initialize` with its own URL, under a new promise. |
| `EsbuildHost.RunValid` | services/ui/src/hooks/useEsbuild.ts:15-36 | Every trace preserves the invariant. |
| `EsbuildHost.ReadyIsPermanent` | services/ui/src/hooks/useEsbuild.ts:26-28 | Once ready, no trace of calls and settles changes the host again. |
| `EsbuildHost.InitCallsMatchFailures` | services/ui/src/hooks/useEsbuild.ts:20-33 | Over any trace, the number of `initialize` calls equals the number of rejected attempts plus the change in recorded promises. |
| `EsbuildHost.BootsOncePerFailure` | services/ui/src/hooks/useEsbuild.ts:9-13 | From page load, `initialize` runs at most once more than the number of failures. It runs exactly once when nothing failed and an attempt is recorded. |
| `EsbuildHost.Bootstrapper.constructor` | services/ui/src/hooks/useEsbuild.ts:6-7 | The singleton starts not ready, with no promise and no `initialize` calls. |
| `EsbuildHost.Bootstrapper.Ensure` | services/ui/src/hooks/useEsbuild.ts:15-36 | `ensureEsbuild` in place: exactly `EnsureReady`. A ready host resolves without new calls; otherwise the caller awaits the recorded promise. |
| `EsbuildHost.Bootstrapper.Settle` | services/ui/src/hooks/useEsbuild.ts:26-32 | Success sets ready and keeps the promise. Failure clears the promise and leaves ready false. Neither calls `initialize`. |
| `Alerts.NewAlert` | services/ui/src/hooks/useAlerts.tsx:31-33 | The alert carries the given id and message. Its type defaults to info, and it is modal only when `true` is passed. |
| `Alerts.WithoutId` | services/ui/src/hooks/useAlerts.tsx:46 | The filter keeps exactly the alerts whose id differs, and never grows the list. |
| `Alerts.Toasts` | services/ui/src/hooks/useAlerts.tsx:49 | The toast view holds exactly the non-modal alerts. |
| `Alerts.Modals` | services/ui/src/hooks/useAlerts.tsx:50 | The modal view holds exactly the modal alerts. |
| `Alerts.WithoutIdConcat` | services/ui/src/hooks/useAlerts.tsx:46 | Removal by id works piecewise on a concatenation, so the order of the kept alerts is preserved. |
| `Alerts.WithoutAbsentId` | services/ui/src/hooks/useAlerts.tsx:46 | Removing an id that no alert carries leaves the list unchanged. |
| `Alerts.WithoutIdIdempotent` | services/ui/src/hooks/useAlerts.tsx:46 | Removing the same id twice is the same as removing it once. |
| `Alerts.WithoutIdCommutes` | services/ui/src/hooks/useAlerts.tsx:38-46 | Two removals, manual or by auto-dismiss, give the same list in either order. |
| `Alerts.ShowThenRemove` | services/ui/src/hooks/useAlerts.tsx:30-47 | Showing an alert and then removing its id equals removing that id from the earlier list. Every alert that shares the random id goes too. |
| `Alerts.ToastsConcat` | services/ui/src/hooks/useAlerts.tsx:49 | The toast view keeps the list's order. |
| `Alerts.ModalsConcat` | services/ui/src/hooks/useAlerts.tsx:50 | The modal view keeps the list's order. |
| `Alerts.ViewsPartition` | services/ui/src/hooks/useAlerts.tsx:49-50 | Toasts and modals together are the list as a multiset, and their lengths add up. |
| `Alerts.NewAlertJoinsOneView` | services/ui/src/hooks/useAlerts.tsx:33-50 | A new alert is appended to exactly one view, and the other view is unchanged. |
| `Alerts.UseAlert` | services/ui/src/hooks/useAlerts.tsx:19-25 | The hook returns the provider's value when there is one. Otherwise it fails with "useAlert must be used within AlertProvider". |
| `Alerts.AlertIcon` | services/ui/src/hooks/useAlerts.tsx:52-95 | The icon choice is total, with info on the default branch. Each glyph belongs to exactly one type: reading the type back from the icon gives the type it was drawn for. |
| `Alerts.AlertColors` | services/ui/src/hooks/useAlerts.tsx:97-132 | The colour choice is total, with info on the default branch. The background class identifies the type it was chosen for. |
| `Alerts.AlertStylesDistinct` | services/ui/src/hooks/useAlerts.tsx:52-132 | Icon and colour selection are total, with info on the default branch. Different types get different icons and backgrounds. |
| `Alerts.AlertProvider.constructor` | services/ui/src/hooks/useAlerts.tsx:28 | The provider starts with no alerts, no pending timers and nothing shown. Its invariant holds: every alert on screen was shown, and every pending timer was armed for a shown toast. |
| `Alerts.AlertProvider.ShowAlert` | services/ui/src/hooks/useAlerts.tsx:30-43 | Exactly one alert is appended and earlier alerts are unchanged. A dismiss timer for its id is armed exactly when it is not modal. The invariant is kept. |
| `Alerts.AlertProvider.RemoveAlert` | services/ui/src/hooks/useAlerts.tsx:45-47 | Every alert with the id is removed, and the pending timers are unchanged. The invariant is kept. |
| `Alerts.AlertProvider.AutoDismiss` | services/ui/src/hooks/useAlerts.tsx:36-40 | A pending timer fires: its id is filtered out, every other alert stays, and that timer is retired. A modal alert goes only when a toast shown under the same id armed the timer, so modal alerts otherwise stay until removed. |
| `LandingPage.InitialVisibility` | services/ui/src/pages/LandingPage.tsx:22-28 | The record holds exactly the three section keys: the hero visible, pricing and get-started hidden. |
| `LandingPage.ApplyEntry` | services/ui/src/pages/LandingPage.tsx:58-66 | A tagged entry leaves its key holding its `isIntersecting`, whether or not that differed before. An untagged entry changes nothing. |
| `LandingPage.Applied` | services/ui/src/pages/LandingPage.tsx:56-67 | Folding entries never drops a key. A key that was not in the record before has the value of its last tagged entry. |
| `LandingPage.NoChangeKeepsValue` | services/ui/src/pages/LandingPage.tsx:63-69 | When no entry differed from the record, the folded value equals the current record. |
| `LandingPage.LastEntryWins` | services/ui/src/pages/LandingPage.tsx:56-67 | A section's value is that of its last tagged entry. A section with no entry keeps its previous value, or stays absent. |
| `LandingPage.ReduceVisibility` | services/ui/src/pages/LandingPage.tsx:54-70 | The loop computes the entries folded in order, skipping untagged targets. It returns the current record itself exactly when no entry differed. |
| `LandingPage.FlipAndBackIsFreshCopy` | services/ui/src/pages/LandingPage.tsx:63-69 | A section that flips and flips back leaves the value unchanged but still counts as a change, so the updater returns a fresh copy. |
| `LandingPage.SectionPresentation` | services/ui/src/pages/LandingPage.tsx:109-110 | A section's class is "opacity-100" or "opacity-0". It is "opacity-100" exactly when the record shows the section as visible. |
| `LandingPage.PresentationAfterEntries` | services/ui/src/pages/LandingPage.tsx:109-110 | Starting from the initial record (hero visible, pricing and get-started hidden), a section gets "opacity-100" exactly when its last entry intersects. With no entry, only the hero does. |
| `LandingPage.SectionRegistry.constructor` | services/ui/src/pages/LandingPage.tsx:17-21 | All three section refs start empty, with no observer and nothing observed. |
| `LandingPage.SectionRegistry.RegisterSectionRef` | services/ui/src/pages/LandingPage.tsx:90-107 | Only the given section's ref is replaced. The new element is tagged with the section's key. While an observer exists, the previous element is unobserved and the new one observed. |
| `LandingPage.SectionRegistry.Connect` | services/ui/src/pages/LandingPage.tsx:75-82 | The mount effect walks the section ids in order and observes exactly the elements registered for them. |
| `LandingPage.SectionRegistry.Disconnect` | services/ui/src/pages/LandingPage.tsx:84-87 | The cleanup drops the observer and every observation. Refs and tags are unchanged. |
| `LandingPage.ObservedEntryIsTagged` | services/ui/src/pages/LandingPage.tsx:59-62 | An entry for a registered element is never skipped, and it writes one of the three section keys. |
| `LandingPage.PlanLink` | services/ui/src/pages/LandingPage.tsx:313 | A card's link is the register path with `?plan=` followed by exactly the tier's name. |
| `RegisterPage.ParsePlan` | services/ui/src/pages/RegisterPage.tsx:44-50 | Exactly "Basic", "Pro" and "Enterprise" are accepted, each as its own plan. |
| `RegisterPage.PlanFromQuery` | services/ui/src/pages/RegisterPage.tsx:42-52 | The plan changes only to a plan whose exact name is the parameter. Such a parameter always selects that plan. |
| `RegisterPage.PlanNameRoundTrip` | services/ui/src/pages/RegisterPage.tsx:6-27 | Every plan's name is accepted as that plan. |
| `RegisterPage.UnknownParamKeepsPlan` | services/ui/src/pages/RegisterPage.tsx:42-52 | An absent parameter, or any value that is not a plan name, leaves the selection unchanged. |
| `RegisterPage.LandingLinksAccepted` | services/ui/src/pages/LandingPage.tsx:248-313 | Every "Choose plan" link on the landing page carries, as its plan parameter, a name the register page accepts. It selects the plan card in the same position. |
| `RegisterPage.RequiresPayment` | services/ui/src/pages/RegisterPage.tsx:40 | Payment is required exactly when the selected plan's name is not "Basic", that is, for every card after the first. |
| `RegisterPage.SubmitLabel` | services/ui/src/pages/RegisterPage.tsx:260 | The button says "Pay now" exactly when payment is required, and "Register" exactly when it is not. |
| `RegisterPage.CardFields` | services/ui/src/pages/RegisterPage.tsx:189-254 | The card inputs are rendered exactly when the plan is not Basic, and each rendered one is required. |
| `RegisterPage.CardFieldsIffPayNow` | services/ui/src/pages/RegisterPage.tsx:260 | The card fields appear exactly when the button says "Pay now". Otherwise it says "Register". |
| `RegisterPage.InitialForm` | services/ui/src/pages/RegisterPage.tsx:32-38 | The form starts on Basic: no payment, no card fields, "Register". |
| `RegisterPage.SelectPlan` | services/ui/src/pages/RegisterPage.tsx:162 | Clicking a card selects its plan and changes no other field. |
| `RegisterPage.ApplyQuery` | services/ui/src/pages/RegisterPage.tsx:42-52 | The query effect changes only the selected plan, and only to the plan its parameter names. |
| `RegisterPage.HandleSubmit` | services/ui/src/pages/RegisterPage.tsx:54-61 | Submit registers nothing. Whatever the form holds, it appends the fixed modal warning "We aren't quite ready for you yet! Stay tuned for our launch." and arms no dismiss timer. |

## Left out

- esbuild itself (`initialize`, `transform`, the WASM worker) and the evaluation of user code with `new Function`: these are foreign calls. Each pipeline's result is the `Outcome` given to `Complete`, and an `Ensure` call's promise settles through `Settle`.
- Real timers, promises and React's effect scheduling are not modelled: they become the explicit events. The model does not capture whether an event can actually occur at a given moment.
- The rejection that `.catch` rethrows to the callers awaiting a failed promise is not modelled. The model records only which promise each caller awaits and that the record is cleared.
- The compile effect also re-runs when `ensureEsbuild` changes identity, which happens when `wasmURL` changes. That re-run is one more `Edit` with the same code.
- The geometry in the drag handlers is not modelled: `getBoundingClientRect`, the pixel-to-percent arithmetic and its floating-point rounding and NaN. So are the pointer listeners' registration and removal and `document.body.style`. Only the clamp of each proposed value is modelled, with exact reals.
- SlideEditor.Clamp: uses exact reals, so it does not model a NaN proposal. `Math.max`/`Math.min` would propagate a NaN.
- The Monaco editor, the speaker-notes tab, `IntersectionObserver` thresholds and the cursor glow are browser and presentation concerns.
- Alert ids come from `Math.random().toString(36)`. They are parameters, so the model does not assume they are unique.
- Alerts.AlertProvider.AutoDismiss: does not promise that a modal alert stays until it is removed. Ids are random and may collide, and a toast shown under a modal alert's id arms a timer that removes the modal alert too. The contract states that this is the only way a timer removes a modal alert.
- Only the `plan` parameter of a register link is read. Percent-decoding and other query parameters are not modelled.
- Auth, the API client, routing (`App.tsx`), the login, not-found and callback pages, `Stage.tsx`, the sample slide and the type declarations are not part of this model. They hold no logic beyond library wrappers and markup.
- Tailwind classes and SVG markup are not modelled beyond the status label and tone, the alert icon and colour tables, and the opacity classes.
