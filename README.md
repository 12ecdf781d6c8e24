# Crusher replay resolver and UI state, in Dafny

Crusher records browser interactions as action lists ("tests") and replays them.
This project models the small amount of logic in the Electron app and the web
dashboard that has real behaviour, and proves properties of it:

- **Replay resolver** (`cloud.dfy`, module `Cloud`). `CloudCrusher.getReplayableTestActions` flattens a
  recorded action list into the list that is replayed. First come the browser actions, but only for the
  main test. Next comes the recursive resolution of the test that the first RUN_AFTER_TEST browser action
  refers to; that test is fetched from the backend and resolved as a non-main test. Last come the main
  actions. The specification is the function `Resolve` (with `Expand`). The method
  `GetReplayableTestActions` builds the list step by step into `out`, as the source does, and is proved
  equal to `Resolve`. The backend is a finite map from (backend path, test id) to action lists, so a
  missing key is a failed fetch. The two classifiers `getBrowserActions` and `getMainActions` are given
  as parameters, and nothing is assumed about them. `TestIdsField` models the `testIds` field that
  `runTests` sends.
- **Status bar** (`status_bar.dfy`, module `StatusBar`). `formatLogs` adds to each log the time elapsed
  since the previous log. It then keeps the logs without a parent and attaches their direct children.
  The bar also shows the last log message, cut to 100 characters.
- **Custom-code modal** (`custom_code.dfy`, module `CustomCode`). Covers `ensureFirstBackSlash`. The class
  `CodeModal` holds the template list, the selected template, the editor text and the naming flags. Its
  methods are the create, update, delete, detach and select handlers and `updateCustomCode`.
- **Settings modal** (`settings.dfy`, module `Settings`). Covers the three-state "connect to cloud"
  status, its labels, the form defaults and the settings record that is saved. The class invariant is
  that the status is CONNECTED exactly when account info is present.
- **Tooltip** (`tooltip.dfy`, module `Tooltip`). Covers the `show` flag of the design-system tooltip under
  mouse-over, mouse-leave, reference-click and window-click events. `Step` is the one-event
  specification, and the methods of `TooltipState` are proved against it.
- **Current project** (`project.dfy`, module `Project`). Covers the dashboard's `currentProject` selector.

`wrappers.dfy` (Option, Result), `seqs.dfy` (`filter`, `find` and their lemmas) and `actions.dfy`
(the recorded action: type, selector, `payload.meta`) are shared helpers.

Three behaviours of the resolver's code are worth stating outright, and the model keeps them:

- A RUN_AFTER_TEST action is **not** removed from the flattened list. In a main test it stays at its
  position among the browser actions (`Cloud.RunAfterTestKeptInMainTest`).
- A referenced test contributes only its resolved sub-reference and its main actions. Its own browser
  actions are dropped.
- The code has no cycle guard, and the model has none either. A `fuel` bound stands for the unbounded
  recursion, and `Cloud.SelfReferenceNeverResolves` shows that a self-referencing test never resolves.

Two observations about the tooltip, stated as properties rather than changed:

- The window click listener hides the tooltip unless the target is inside both the reference and the
  tooltip. So a click inside the tooltip alone also hides it.
- A tooltip whose `type` is not given opens on click but is never hidden (`Tooltip.UntypedTooltipStaysOpen`).

## Model

| member | source | states |
|---|---|---|
| `Cloud.GetTest` | packages/electron-app/src/lib/cloud.ts:9-14 | the fetch succeeds exactly when the backend holds the (backend path, test id) key and then yields that test's actions; otherwise it fails with that key |
| `Cloud.GetReplayableTestActions` | packages/electron-app/src/lib/cloud.ts:16-38 | building `out` step by step (browser actions if main, the inlined referenced test, the main actions) gives exactly the specified resolution, including its failures |
| `Cloud.Resolve` | packages/electron-app/src/lib/cloud.ts:16-38 | the resolution of an action list: a success is at least as long as (browser actions if main) plus the main actions, and a list with no RUN_AFTER_TEST among its browser actions always resolves |
| `Cloud.Expand` | packages/electron-app/src/lib/cloud.ts:21-37 | once the list is split: with no RUN_AFTER_TEST among the browser actions the resolution succeeds; with one and no depth left it fails with `DepthExhausted` |
| `Cloud.ReferencedTestId` | packages/electron-app/src/lib/cloud.ts:27 | the test id fetched for a RUN_AFTER_TEST is its `payload.meta.value`: a string as it is, a non-negative number as its decimal numeral, a missing value as "undefined" |
| `Actions.TemplateText` | packages/electron-app/src/lib/cloud.ts:10 | a meta value inside a template literal: missing gives "undefined", null gives "null", a string itself, an integer a canonical decimal numeral denoting it (with "-" when negative) |
| `Actions.Decimal` | packages/electron-app/src/lib/cloud.ts:10 | the decimal numeral of a natural number is canonical (digits only, no leading zero) and denotes that number |
| `Cloud.ResolvedShape` | packages/electron-app/src/lib/cloud.ts:21-37 | a successful resolution begins with the browser actions in order when the test is the main test, and ends with the main actions unchanged |
| `Cloud.NoReferenceNoFetch` | packages/electron-app/src/lib/cloud.ts:26-29 | with no RUN_AFTER_TEST among the browser actions nothing is fetched: for any backend content the output is (browser actions if main) followed by the main actions |
| `Cloud.ReferenceInlined` | packages/electron-app/src/lib/cloud.ts:26-37 | when the referenced test is fetched and resolves, the output is (browser actions if main) ++ that resolution ++ main actions, and its length is the sum of the three |
| `Cloud.FetchFailureAborts` | packages/electron-app/src/lib/cloud.ts:27 | a failed fetch of the referenced test fails the whole resolution with that fetch's error, with no partial list |
| `Cloud.SubResolutionFailureAborts` | packages/electron-app/src/lib/cloud.ts:27 | when the referenced test is fetched but its own resolution fails (a deeper fetch or the depth bound), the whole resolution fails with that same error, with no partial list |
| `Cloud.RunAfterTestKeptInMainTest` | packages/electron-app/src/lib/cloud.ts:23-26 | in a main test the first RUN_AFTER_TEST action itself stays in the output at its index among the browser actions |
| `Cloud.OnlyFirstReferenceFollowed` | packages/electron-app/src/lib/cloud.ts:26-27 | whatever follows the first RUN_AFTER_TEST among the browser actions changes nothing in a non-main resolution, and in a main test it appears only among the leading browser actions |
| `Cloud.DeeperFetchesUseDefaultBackend` | packages/electron-app/src/lib/cloud.ts:27 | only the first-level fetch uses the custom backend path: backends that agree on the default-backend tests and on the first-level test resolve identically |
| `Cloud.FuelMonotone` | packages/electron-app/src/lib/cloud.ts:16-38 | the depth bound only cuts off recursion: a resolution that succeeds within some depth gives the same result with any larger depth |
| `Cloud.SelfReferenceNeverResolves` | packages/electron-app/src/lib/cloud.ts:26-27 | there is no cycle guard: a test stored on the default backend whose first RUN_AFTER_TEST refers to itself never resolves, at any depth, when resolved with no custom backend path |
| `Cloud.FlatMainTestUnchanged` | packages/electron-app/src/lib/cloud.ts:21-37 | when the classifiers split the list into browser actions followed by main actions and there is no RUN_AFTER_TEST, a main test resolves to the list unchanged |
| `Cloud.TestIdsField` | packages/electron-app/src/lib/cloud.ts:52 | the field is present exactly when an array is given; an empty array gives "", a single id is sent as it is; for any non-empty list, ids containing commas included, splitting the field at commas gives the pieces of every id in order, which with `Cloud.JoinSplit` fixes the text sent |
| `Cloud.SplitJoin` | packages/electron-app/src/lib/cloud.ts:52 | joining a non-empty list of comma-free ids with "," and splitting at "," gives the list back |
| `Cloud.SplitConcat` | packages/electron-app/src/lib/cloud.ts:52 | splitting a text that has a comma between two parts gives the pieces of the first part followed by those of the second |
| `Cloud.SplitJoinAll` | packages/electron-app/src/lib/cloud.ts:52 | splitting the comma-joined ids gives the pieces of each id in order, for every non-empty list |
| `Cloud.JoinSplit` | packages/electron-app/src/lib/cloud.ts:52 | joining the pieces of a text with "," gives the text back, so a text is determined by its pieces |
| `StatusBar.WithDiffs` | packages/electron-app/src/ui/components/status-bar/index.tsx:12 | each log keeps its place and gets the time since the previous log of the ungrouped list, 0 for the first |
| `StatusBar.Telescope` | packages/electron-app/src/ui/components/status-bar/index.tsx:12 | for any list carrying the diffs of the logs, the first log's time plus the diffs up to log i equals log i's time |
| `StatusBar.DiffsTelescope` | packages/electron-app/src/ui/components/status-bar/index.tsx:12 | the first log's time plus the diffs up to log i equals log i's time |
| `StatusBar.ChildrenOf` | packages/electron-app/src/ui/components/status-bar/index.tsx:15 | the children of an id are exactly the logs whose parent equals that id, never more of them than there are logs |
| `StatusBar.ChildrenOfAppend` | packages/electron-app/src/ui/components/status-bar/index.tsx:15 | collecting children distributes over concatenation, so the children keep their original order |
| `StatusBar.FormatLogs` | packages/electron-app/src/ui/components/status-bar/index.tsx:11-17 | one group per log with a falsy parent, in their original order (group i is headed by the i-th such log), each group's children being exactly the logs whose parent is that root's id |
| `StatusBar.FormatLogsCoversRoots` | packages/electron-app/src/ui/components/status-bar/index.tsx:13-14 | every log with a falsy parent heads a group, carrying its diff |
| `StatusBar.FormatLogsCoversChildren` | packages/electron-app/src/ui/components/status-bar/index.tsx:15 | every log whose parent is a group's id is among that group's children |
| `StatusBar.OneLevelGrouping` | packages/electron-app/src/ui/components/status-bar/index.tsx:13-15 | a log whose parent is itself a child is neither a group head nor listed under its grandparent |
| `StatusBar.LastLogMessage` | packages/electron-app/src/ui/components/status-bar/index.tsx:124 | the message of the final log, or "" when there are no logs |
| `StatusBar.StatusLine` | packages/electron-app/src/ui/components/status-bar/index.tsx:133 | a message over 100 characters is shown as its first 100 characters followed by "...", a shorter one unchanged; the text never exceeds 103 characters |
| `StatusBar.StatusLineUnchanged` | packages/electron-app/src/ui/components/status-bar/index.tsx:133 | the text is shown unchanged exactly when it has at most 100 characters or is 100 characters followed by "..." |
| `StatusBar.StatusLineIdempotent` | packages/electron-app/src/ui/components/status-bar/index.tsx:133 | cutting an already cut text changes nothing |
| `CustomCode.EnsureFirstBackSlash` | packages/electron-app/src/ui/components/modals/page/customCodeModal.tsx:24-26 | "" stays ""; a non-empty result starts with "/" and ends with the input, at most one character longer; an input starting with "/" is returned unchanged |
| `CustomCode.EnsureFirstBackSlashIdempotent` | packages/electron-app/src/ui/components/modals/page/customCodeModal.tsx:25 | applying it twice is applying it once |
| `CustomCode.WithoutTemplate` | packages/electron-app/src/ui/components/modals/page/customCodeModal.tsx:186 | no template with the id remains and every other template is kept |
| `CustomCode.WithoutTemplateKeepsOrder` | packages/electron-app/src/ui/components/modals/page/customCodeModal.tsx:186 | removing distributes over concatenation, so the kept templates stay in their order |
| `CustomCode.WithoutAbsentTemplate` | packages/electron-app/src/ui/components/modals/page/customCodeModal.tsx:186 | removing an id no template carries leaves the list unchanged |
| `CustomCode.FindTemplate` | packages/electron-app/src/ui/components/modals/page/customCodeModal.tsx:168 | the position found is the first template with the id; none is found exactly when no template has it |
| `CustomCode.CodeModal.constructor` | packages/electron-app/src/ui/components/modals/page/customCodeModal.tsx:104-117 | the modal starts with no templates, no selection, the initial code template in the editor and no name requested |
| `CustomCode.CodeModal.Open` | packages/electron-app/src/ui/components/modals/page/customCodeModal.tsx:124-138 | opening clears the selection and flags, installs the loaded templates, and the remounted editor shows the initial code template again |
| `CustomCode.CodeModal.EditCode` | packages/electron-app/src/ui/components/modals/page/customCodeModal.tsx:366-375 | the editor holds the text the user typed |
| `CustomCode.CodeModal.SaveAsTemplate` | packages/electron-app/src/ui/components/modals/page/customCodeModal.tsx:159-164 | asking to save a new template requests a name |
| `CustomCode.CodeModal.CreateTemplate` | packages/electron-app/src/ui/components/modals/page/customCodeModal.tsx:255-272 | a missing or empty name is rejected with nothing sent or changed; otherwise the name and editor code are sent, and a saved template is appended at the end and selected; a failed save changes nothing |
| `CustomCode.CodeModal.UpdateTemplate` | packages/electron-app/src/ui/components/modals/page/customCodeModal.tsx:166-174 | only the code of the first template with the selected id changes, to the editor's code; all other records are untouched; without a selection or a match nothing changes |
| `CustomCode.CodeModal.Detach` | packages/electron-app/src/ui/components/modals/page/customCodeModal.tsx:176-181 | the selection is cleared only when one is set |
| `CustomCode.CodeModal.DeleteTemplate` | packages/electron-app/src/ui/components/modals/page/customCodeModal.tsx:183-190 | every template with the selected id is removed, the others kept in order, and the selection cleared; without a selection nothing changes |
| `CustomCode.CodeModal.SelectTemplate` | packages/electron-app/src/ui/components/modals/page/customCodeModal.tsx:314-319 | the chosen id is selected and the editor shows the first template with that id |
| `CustomCode.CodeModal.UpdateCustomCode` | packages/electron-app/src/ui/components/modals/page/customCodeModal.tsx:145-153 | an edited step gets `meta.script` = editor code and `meta.templateId` = the selection or null, and every other field and meta key is unchanged; without a step nothing is dispatched |
| `Settings.ConnectWord` | packages/electron-app/src/ui/components/toolbar/settingsModal.tsx:107-111 | every status has a label: Connected, Connecting or Connect |
| `Settings.ConnectWordDistinguishes` | packages/electron-app/src/ui/components/toolbar/settingsModal.tsx:107-111 | the label determines the status |
| `Settings.StatusForAccount` | packages/electron-app/src/ui/components/toolbar/settingsModal.tsx:41-52 | the status is CONNECTED exactly when account info is present and is never WAITING |
| `Settings.InitialForm` | packages/electron-app/src/ui/components/toolbar/settingsModal.tsx:37-40 | missing endpoints become "" and missing flags false; present values are kept |
| `Settings.SettingsModal.constructor` | packages/electron-app/src/ui/components/toolbar/settingsModal.tsx:37-43 | the form starts from the stored settings and the status from the account info |
| `Settings.SettingsModal.AccountInfoChanged` | packages/electron-app/src/ui/components/toolbar/settingsModal.tsx:46-52 | a change of account info resets the status to CONNECTED or NOT_CONNECTED, overriding WAITING, and keeps the invariant |
| `Settings.SettingsModal.HandleConnectToCloud` | packages/electron-app/src/ui/components/toolbar/settingsModal.tsx:84-103 | from NOT_CONNECTED the login starts and the status becomes WAITING; from CONNECTED or WAITING the status is unchanged and only a notice results |
| `Settings.SettingsModal.SetBackendEndPoint` | packages/electron-app/src/ui/components/toolbar/settingsModal.tsx:54-56 | the backend endpoint field takes the typed value |
| `Settings.SettingsModal.SetFrontendEndPoint` | packages/electron-app/src/ui/components/toolbar/settingsModal.tsx:58-60 | the frontend endpoint field takes the typed value |
| `Settings.SettingsModal.SetEnableMouseTracker` | packages/electron-app/src/ui/components/toolbar/settingsModal.tsx:62-64 | the mouse-tracker flag takes the toggle's value |
| `Settings.SettingsModal.SetAutoDetectActions` | packages/electron-app/src/ui/components/toolbar/settingsModal.tsx:66-68 | the auto-detect flag takes the toggle's value |
| `Settings.SettingsModal.SaveAction` | packages/electron-app/src/ui/components/toolbar/settingsModal.tsx:70-76 | the saved record holds exactly the four form fields |
| `Settings.StatusAfter` | packages/electron-app/src/ui/components/toolbar/settingsModal.tsx:46-103 | a change of account info sets CONNECTED exactly when info is present, never WAITING; a connect press moves NOT_CONNECTED to WAITING and leaves the other two states as they are |
| `Settings.StatusTracksAccount` | packages/electron-app/src/ui/components/toolbar/settingsModal.tsx:41-103 | after any sequence of account changes and connect presses the status is CONNECTED exactly when account info is present |
| `Settings.ConnectLeadsToWaiting` | packages/electron-app/src/ui/components/toolbar/settingsModal.tsx:84-103 | pressing connect while not connected reaches WAITING, and further presses keep it there |
| `Settings.WaitingIgnoresConnect` | packages/electron-app/src/ui/components/toolbar/settingsModal.tsx:95-103 | from WAITING, connect presses leave the status unchanged |
| `Tooltip.Step` | packages/dyson/src/components/atoms/tooltip/Tooltip.tsx:50-95 | hover mode: mouse-over shows; leaving into the tooltip keeps `show`; leaving elsewhere hides only with a truthy `autoHide`; other types: a reference click shows; an event whose handler the mode does not attach (mouse events outside hover mode, a reference click in hover mode) leaves `show` unchanged; the window click hides only when the hider is active and the target is not inside both; only mouse-over and reference click can show |
| `Tooltip.OutsideClickHiderActive` | packages/dyson/src/components/atoms/tooltip/Tooltip.tsx:84 | the window click listener is installed only outside hover mode and with a truthy `autoHide`, and never without a `type` |
| `Tooltip.UntypedTooltipStaysOpen` | packages/dyson/src/components/atoms/tooltip/Tooltip.tsx:84 | without a `type` prop no sequence of events hides a shown tooltip |
| `Tooltip.NoAutoHideStaysOpen` | packages/dyson/src/components/atoms/tooltip/Tooltip.tsx:60-88 | with `autoHide` false no sequence of events hides a shown tooltip |
| `Tooltip.HiddenUntilOpened` | packages/dyson/src/components/atoms/tooltip/Tooltip.tsx:50-72 | a hidden tooltip stays hidden through any events other than mouse-over and reference click |
| `Tooltip.ClickOnReferenceShows` | packages/dyson/src/components/atoms/tooltip/Tooltip.tsx:67-90 | outside hover mode, a click on the reference shows the tooltip even after the capturing window listener ran first |
| `Tooltip.TooltipState.constructor` | packages/dyson/src/components/atoms/tooltip/Tooltip.tsx:39-40 | the tooltip starts hidden with the given props |
| `Tooltip.TooltipState.OnMouseOver` | packages/dyson/src/components/atoms/tooltip/Tooltip.tsx:53-55 | the new `show` is the one-event specification for a mouse-over |
| `Tooltip.TooltipState.OnMouseLeave` | packages/dyson/src/components/atoms/tooltip/Tooltip.tsx:56-63 | the new `show` is the one-event specification for a mouse-leave |
| `Tooltip.TooltipState.OnReferenceClick` | packages/dyson/src/components/atoms/tooltip/Tooltip.tsx:67-71 | the new `show` is the one-event specification for a click on the reference |
| `Tooltip.TooltipState.OnWindowClick` | packages/dyson/src/components/atoms/tooltip/Tooltip.tsx:84-90 | the new `show` is the one-event specification for a window click |
| `Project.CurrentProject` | packages/crusher-app/src/store/atoms/global/project.ts:14-19 | null exactly when the projects are not loaded; otherwise the first project in list order whose id is the selected id, or undefined exactly when none matches |

## Left out

- HTTP, headers and URLs: the requests in `cloud.ts`, cookie and bearer headers, `resolveToBackendPath`/`resolveToFrontEndPath` and `shell.openExternal` are network and Electron I/O. `updateTestName`, `saveTestDirectly`, `getBuildReport`, `saveTest`, `updateTestDirectly` and `updateTest` consist only of such requests and are not modelled. Of `runTests` only the `testIds` field is modelled. The date-based default test name depends on the clock and the locale.
- Cloud.GetReplayableTestActions: it takes a depth bound (`fuel`) that the source does not have and fails with `DepthExhausted` when the bound runs out. The source instead recurses without end on a cyclic reference.
- Classifiers: `getBrowserActions` and `getMainActions` live in runner-utils, which is not part of this model. They are parameters here. The browser executors re-exported by runner-utils drive a live browser and are not modelled.
- Actions.TemplateText: numeric meta values are integers here. JavaScript numbers are doubles, so `${value}` differs at the edges, and `Cloud.ReferencedTestId` inherits this. From 10^21 on the source prints the exponent form ("1e+21"). Above 2^53 the value is already rounded when the response is parsed. Fractions such as 1.5 cannot be represented. The model's exact decimal numeral matches the source only for integers below 10^21 that are exactly representable.
- Cloud.ReferencedTestId: a numeric `payload.meta.value` is an integer here, not a JavaScript double. The `Actions.TemplateText` line above gives the consequences for the test id.
- Actions: `payload.meta` is always present here. The source would throw on an action without it.
- StatusBar.WithDiffs: times and diffs are integers. The source formats floating-point differences with `toFixed(2)`.
- StatusBar.StatusLine: lengths count characters. JavaScript's `substr` counts UTF-16 code units, so a cut can differ for characters outside the Basic Multilingual Plane.
- Rendering: JSX, CSS, the object inspector, sample contexts, tab and maximise state, and scrolling in the status bar are not modelled.
- customCodeModal.tsx editor plumbing: the Monaco loader and compiler options, `fs.readFileSync`, `ipcRenderer.sendSync` and `uriFromPath` (which uses `path.resolve` and `encodeURI`) are not modelled. `runCustomCode` only hands the code to a foreign command. `handleOnMount`, which loads an edited step's script and re-selects its template, is not modelled. The closed modal renders nothing, so each open mounts a fresh editor. The model takes that editor to start from the initial code template, which is the editor package's default of disposing its model on unmount.
- Template persistence: `saveCodeTemplate`, `updateCodeTemplate` and `deleteCodeTemplate` are asynchronous foreign calls. For create, the backend's answer is a parameter. For update and delete, the call is assumed to succeed; the state a rejected call leaves is not modelled. The editor text is read once per handler, and closures that capture stale state across an `await` are not modelled.
- CustomCode.CodeModal.UpdateCustomCode: the source changes the step's `meta` object in place, so every holder of that object sees the change. The model returns the updated action as a new value and does not capture that aliasing.
- Settings side effects: `localStorage`, the redux dispatch, `waitForUserLogin`, `focusOnWindow`, the snackbars (returned as `ConnectOutcome` values) and closing the modal are not modelled.
- Tooltip: the `callback(show)` notification, floating-ui positioning, the portal, and the adding and removing of the window listener are DOM concerns and are not modelled. Whether the target lies inside the reference or the tooltip is given as booleans.
- Project.CurrentProject: the projects list is either null or a list. An `undefined` list, which optional chaining would also map to `undefined`, is not modelled.
- Configuration and constants: the process configuration, the colour tokens and the extension's constant strings carry no behaviour.
