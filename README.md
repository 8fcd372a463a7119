# TermuxAIApp project lifecycle, in Dafny

This project models the part of TermuxAIApp, a React Native dashboard for AI scripts run under
Termux, that holds real logic: the project lifecycle. Each project record has an install status
(`not_installed`, `installing`, `installed`), loading and running flags, an optional error and
optional log lines. The model covers:

- **The store (App.js).** `AppStore.AppState` holds the project list and the dark-mode flag.
  `updateProjectStatus` merges a partial record into the project with a given id. The theme
  flag is written as `'dark'`/`'light'` whenever it changes and also once on mount. At start-up
  the stored value is read back, and the system scheme is used when nothing is stored. Because
  the mount-time write of `'light'` lands before that read, a saved dark theme does not survive
  a restart (see Findings below).
- **The shell hook (hooks/useTermuxShell.js).** `TermuxShell.Shell` holds `output`, `isLoading`,
  `isRunning`, `error` and the pid. `runCommand` and `stopCommand` each become a
  before-the-await method and an after-the-await method. How the collaborator's promise settled is
  a parameter, and so is the random number that picks the pid.
- **The project card (components/ProjectCard.jsx).**
  - The install/uninstall button, its timer and its `disabled` guard.
  - The Run/Stop handler with its implicit install.
  - The install and run-status labels and the run-status badge.
  - The effect that copies the hook's state back into the store.
- **The bulk buttons (components/GlobalControls.jsx).** `runAllProjects` and `stopAllProjects`
  walk the list, patch every selected project at once, and start one timer per project. Each
  timer applies a completion patch built from the list as it was when the button was pressed.
- **The log screen (screens/LogsScreen.jsx)** tags every log line with its project's name and
  concatenates the lines.
- **The dashboard (screens/HomeScreen.jsx)** counts the projects: all of them, the installed
  ones, the running ones and those with an error.

Modules: `Projects` (the record and the `{ ...project, ...patch }` merge), `Lists` (the
`filter` the components use), `AppStore`, `TermuxShell`, `ProjectCard`, `GlobalControls`,
`LogsScreen`, `HomeScreen`.

Modelling conventions:

- **Partial records.** A partial record is a `Patch`. Each key is either absent (`Keep`) or
  present with a value (`Set`).
- **JavaScript truthiness is explicit.**
  - An error shows (counts as truthy) when it is present and non-empty.
  - The pid is truthy when it is present and non-zero.
  - `x || fallback` is `OrDefault`.
- **`null` and `undefined` are both `None`.**
- **Timers and awaits become explicit steps.**
  - A `setTimeout` callback is a method of its own, and so is the code after an `await`.
  - Every method runs to completion before the next begins, as on the JavaScript event loop.

Behaviour worth knowing, as the code does it:

- Pressing Run on a running or loading project takes the stop path (components/ProjectCard.jsx:67,
  76-78). It does not fail with an invalid-state error.
- The implicit install before a run happens only from `not_installed`
  (components/ProjectCard.jsx:69). A project that is `installing` is run without waiting.
- Run-all does not skip loading projects (components/GlobalControls.jsx:28).
- Run-all never calls the command transport. It writes simulated log lines into the store, and
  its completion patch rebuilds `logs` from the list as it was at the press, so the
  "Starting ..." line is lost (components/GlobalControls.jsx:30-32).
- A run clears the hook's `output`, not the project's `logs`. The logs follow only through the
  sync effect.

## Model

| member | source | states |
|---|---|---|
| Projects.ApplyMerges | App.js:76 | Merging a patch sets every field the patch names to the patch's value and leaves every other field as it was |
| Projects.ApplyIdempotent | App.js:76 | Merging the same patch twice gives the record that merging it once gives |
| Projects.ApplyThen | App.js:76 | Two successive merges equal one merge of the combined patch, in which the second patch's keys win |
| AppStore.Updated | App.js:73-79 | The list keeps its length and order; a record with another id is unchanged; a record with the id becomes the merge of the patch into it |
| AppStore.AppState.UpdateProjectStatus | App.js:73-79 | The store's list becomes the updated list; the theme flag is unchanged |
| AppStore.UpdateUnknownIdIsIdentity | App.js:74-78 | Updating an id that no project has leaves the list unchanged |
| AppStore.UpdateKeepsIds | App.js:74-77 | After an update every position holds a record with the same id as before |
| AppStore.UpdateIdempotent | App.js:76 | Issuing the same update twice gives the list one update gives |
| AppStore.UpdateThen | App.js:73-79 | Two updates of one id equal one update with the combined patch |
| AppStore.UpdatesCommute | App.js:75-77 | Updates keyed by different ids can be issued in either order |
| AppStore.AppState.constructor | App.js:25-26 | The store starts with the given project list and light mode |
| AppStore.AppState.RestoreTheme | App.js:35-41 | At start-up, the flag is whether the stored theme is 'dark'; with nothing stored, it is whether the system scheme is 'dark'; the projects are untouched |
| AppStore.AppState.SavedTheme | App.js:58-61 | The saved string is 'dark' or 'light', and it is 'dark' exactly when dark mode is on |
| AppStore.AppState.ToggleTheme | App.js:69-71 | The flag is negated and the projects are untouched |
| AppStore.ToggleTwiceRestores | App.js:69-71 | Toggling twice restores the flag and leaves the projects unchanged |
| AppStore.ThemeRoundTrip | App.js:36-60 | The string mapping alone: reading back the string saved for a flag gives that flag, whatever the system scheme. As written, the mount-time save overwrites the stored value before it is read (`StartUp`) |
| AppStore.StartUp | App.js:23-61 | Start-up as written: after the mount-time save and the read in `prepare`, the stored value is 'light' and dark mode is off, whatever the previous session stored |
| AppStore.SavedDarkIsLost | App.js:35-37 | A previous session that saved 'dark' is followed by a start-up in light mode |
| AppStore.StartUpRestoring | App.js:35-41 | Start-up with the read before any save: the flag is the one the previous session stored, or the system scheme's when nothing is stored, and that flag is what gets saved |
| AppStore.MissingThemeFollowsSystem | App.js:36-41 | With no stored theme, dark mode is on exactly when the system scheme is 'dark' |
| TermuxShell.OrDefault | hooks/useTermuxShell.js:23-27 | A non-empty collaborator message is kept; otherwise the fallback is used; the result is never empty when the fallback is not |
| TermuxShell.PidFromDraw | hooks/useTermuxShell.js:21 | The fake pid lies in 1..10000 |
| TermuxShell.Shell.constructor | hooks/useTermuxShell.js:5-9 | The hook starts with empty output, both flags false, no error and no pid |
| TermuxShell.Shell.BeginRun | hooks/useTermuxShell.js:11-14 | Before the await: loading, error cleared, output cleared |
| TermuxShell.Shell.EndRun | hooks/useTermuxShell.js:15-31 | After the await: state for a success, a failure and a rejection, and the `finally` that clears loading |
| TermuxShell.Shell.RunCommand | hooks/useTermuxShell.js:11-32 | The whole of `runCommand` is the settled state of the started state |
| TermuxShell.Shell.BeginStop | hooks/useTermuxShell.js:34-36 | The guard passes exactly when running with a truthy pid; only then does loading go up |
| TermuxShell.Shell.EndStop | hooks/useTermuxShell.js:37-50 | After the await: state for a successful stop, a failed one and a rejection, and the `finally` |
| TermuxShell.Shell.StopCommand | hooks/useTermuxShell.js:34-52 | The whole of `stopCommand` is the stop outcome, or no change when the guard fails |
| TermuxShell.RunStartClears | hooks/useTermuxShell.js:12-14 | A run first raises loading and clears the error and output, keeping the running flag and pid |
| TermuxShell.RunOutcome | hooks/useTermuxShell.js:15-31 | After a run, loading is false. It is running iff the collaborator succeeded; then it has the result's output, no error and a pid in 1..10000; otherwise it has a non-empty error, empty output and the old pid |
| TermuxShell.RunKeepsCollaboratorMessage | hooks/useTermuxShell.js:22-28 | On failure a non-empty collaborator message is the recorded error |
| TermuxShell.StopGuarded | hooks/useTermuxShell.js:35 | Without running and a truthy pid, stopping changes nothing |
| TermuxShell.StopOutcome | hooks/useTermuxShell.js:37-50 | After a stop, loading is false and the old output is a prefix of the new. Success appends exactly the message, stops the process and clears the pid. Failure sets a non-empty error and keeps the running flag, pid and output |
| ProjectCard.ReplaceNothing | components/ProjectCard.jsx:90 | `replace` on a string without the pattern returns it unchanged |
| ProjectCard.ReplaceFirstAt | components/ProjectCard.jsx:90 | `replace` with a one-character pattern replaces only the first occurrence and keeps the rest, including later occurrences |
| ProjectCard.NotInstalledLabel | components/ProjectCard.jsx:90 | `not_installed` is shown as NOT INSTALLED |
| ProjectCard.InstallingLabel | components/ProjectCard.jsx:90 | `installing` is shown as INSTALLING |
| ProjectCard.InstalledLabel | components/ProjectCard.jsx:90 | `installed` is shown as INSTALLED |
| ProjectCard.RunLabelPriority | components/ProjectCard.jsx:93 | Each of LOADING, RUNNING, ERROR and STOPPED is shown exactly in its own case of the order LOADING > RUNNING > ERROR > STOPPED |
| ProjectCard.BadgeFollowsLabel | components/ProjectCard.jsx:51-56 | The badge follows the same order as the label: two projects show the same badge iff they show the same label |
| ProjectCard.InstallAxis | components/ProjectCard.jsx:130-142 | A press moves not_installed to installing and installed to not_installed, and does nothing from installing; the timer then sets installed |
| ProjectCard.PressKeepsRunningInstalled | components/ProjectCard.jsx:130-143 | With the `disabled` guard, no running project is uninstalled: "running only when installed" survives every press the button lets through |
| ProjectCard.PressInstallButton | components/ProjectCard.jsx:130-142 | The store after a press is the pressed list; a timer is scheduled exactly from not_installed |
| ProjectCard.InstallTimerFired | components/ProjectCard.jsx:135-137 | The install timer marks the project installed |
| ProjectCard.ImplicitInstall | components/ProjectCard.jsx:69-73 | Running a not_installed project leaves it installed (installing, then installed, is one update to installed). Any other status leaves the store untouched |
| ProjectCard.HandleRunPress | components/ProjectCard.jsx:66-79 | An idle project installs if needed and then runs `python <scriptName>.py`, never stopping. A running or loading one calls `stopCommand`, which changes the shell only when the shell itself is running with a pid; the store is untouched |
| ProjectCard.EnabledRunButton | components/ProjectCard.jsx:66-77 | A press the Run/Stop button lets through (it is disabled while loading, line 113) takes the stop path exactly when the rendered record is running |
| ProjectCard.SyncAligns | components/ProjectCard.jsx:20-30 | After the effect the card's record holds the hook's flags, error and output; install status and metadata are kept; a record in step and other ids are unchanged |
| ProjectCard.SyncEffect | components/ProjectCard.jsx:20-30 | The effect patches the store exactly when the hook and the record differ |
| GlobalControls.BulkControl | components/GlobalControls.jsx:27-47 | The loop issues the first patch for exactly the selected projects, in list order, and returns those records as the pending timers |
| GlobalControls.RunAllProjects | components/GlobalControls.jsx:26-36 | Run-all selects the idle installed projects and issues their first patch |
| GlobalControls.StopAllProjects | components/GlobalControls.jsx:38-48 | Stop-all selects the running projects and issues their first patch |
| GlobalControls.FireTimer | components/GlobalControls.jsx:31-45 | One timer applies its project's completion patch, keyed by that project's id |
| GlobalControls.FireTimers | components/GlobalControls.jsx:31-45 | All pending timers, fired, apply every completion patch |
| GlobalControls.UpdatedOne | App.js:75-77 | With unique ids, updating one project's id changes that record only |
| GlobalControls.WalkAt | components/GlobalControls.jsx:27-47 | Walking the list patches exactly the selected positions, each with the patch built from its own record, and leaves every other record unchanged |
| GlobalControls.BulkTouchesExactlySelected | components/GlobalControls.jsx:27-47 | A bulk phase touches exactly the selected projects; no project's patch reaches another's record |
| GlobalControls.RunAllOutcome | components/GlobalControls.jsx:26-36 | Between the phases a selected project is loading, not running, error-free and has only the "Starting" line. At the end it is running, not loading, error-free, and its logs are those at the press plus the success line. Every other project is unchanged |
| GlobalControls.StopAllOutcome | components/GlobalControls.jsx:38-48 | Between the phases a running project is loading, still running, with "Stopping" appended. At the end it is stopped, not loading, with its logs at the press plus the stopped line; install status and error are kept. Other projects are unchanged |
| GlobalControls.CardSyncUndoesRunAll | components/ProjectCard.jsx:20-30 | After run-all marks a project running, the sync effect of its card, whose shell is not running, shows the project stopped again |
| LogsScreen.AllLogs | screens/LogsScreen.jsx:16-18 | The combined view has as many lines as all projects' logs together |
| LogsScreen.AllLogsAppend | screens/LogsScreen.jsx:16 | Combining two lists of projects is combining each and concatenating |
| LogsScreen.AllLogsAt | screens/LogsScreen.jsx:16-18 | Line i of project k is at the offset of the lines before project k plus i, tagged with the project's name; project order and line order are kept |
| LogsScreen.EveryLineTagged | screens/LogsScreen.jsx:17 | Every combined line is `[name] line` for some project and one of its log lines |
| LogsScreen.MissingLogsContributeNothing | screens/LogsScreen.jsx:17 | A project with missing or empty logs adds nothing, wherever it stands |
| HomeScreen.Dashboard | screens/HomeScreen.jsx:15-18 | The total is the number of projects, and every other count is at most the total |
| HomeScreen.DashboardCounts | screens/HomeScreen.jsx:16-18 | Each count is the number of positions holding an installed, a running or an erroring project |
| HomeScreen.CountedProjects | screens/HomeScreen.jsx:16-18 | Each filter keeps exactly the projects of its kind |
| HomeScreen.AddProject | screens/HomeScreen.jsx:15-18 | Adding a project raises the total by one, and each other count by one exactly when the project is of that kind |
| Lists.FilterAppend | screens/HomeScreen.jsx:16 | `filter` distributes over concatenation |
| Lists.FilterCountsIndexes | screens/HomeScreen.jsx:16 | `filter(...).length` is the number of matching positions |
| Lists.FilterMembers | screens/HomeScreen.jsx:16 | `filter` keeps exactly the matching elements |

## Findings

| source | as written | input that shows it | evidently intended | confidence | as-written member | corrected member |
|---|---|---|---|---|---|---|
| App.js:25-61 | The theme-saving effect (lines 58-61) also runs on mount, while `isDarkMode` still has its initial `false`. Its write of 'light' lands during the 3-second wait of `prepare` (line 32), before the 'theme' key is read (line 35) | A previous session saved 'dark'; the app restarts; the read returns 'light' and the app comes up light (the system-scheme fallback runs only if that write failed) | The stored preference is restored at start-up (`ThemeRoundTrip`): read first, save afterwards | high, not executed | AppStore.StartUp | AppStore.StartUpRestoring |

## Left out

- Rendering, styling, navigation and animation. This covers the JSX trees, tailwind classes,
  icons, the tab navigator, the splash screen, the toggle switch, the terminal view, and the
  settings and projects screens. The install badge colours of `getStatusBadge` are left out too.
- The command transport. services/termuxApi.js is not part of this model: the outcome
  of `executeTermuxCommand` / `stopTermuxProcess` is a parameter (`ExecResult`, `StopResult`).
- Randomness. `Math.random()` for the pid is a natural-number parameter `draw`.
- Persistence. The AsyncStorage wrapper and the JSON (de)serialisation of the project list
  (App.js:43-47, 63-66) are left out. The theme key is a single `Option<string>` value: its
  string mapping and the order of the mount-time write and the start-up read (`StartUp`) are
  modelled, and a failed write (which would leave the old value in place) is not. The system
  scheme is a parameter.
- The 3-second start-up delay and the app-ready flag.
- The Telegram status check in the bulk controls. Its result is random and it holds no
  lifecycle state.
- services/projectData is not part of this model. The initial list is an arbitrary input.
- The `command` string given to `runCommand` is passed on to the transport, whose answer is a
  parameter, so the model only records it (`HandleRunPress` returns it).
- ProjectCard.HandleRunPress: the two-second install wait is taken as elapsed, with nothing
  else happening during it. The card's closure over a stale `project` is modelled only in that
  decisions use the record the card rendered.
- GlobalControls.FireTimers: fires the timers in list order. Their random delays allow any
  order. `UpdatesCommute` shows that patches of different ids commute, but a lemma for every
  permutation is not stated.
- GlobalControls.RunAllOutcome, GlobalControls.StopAllOutcome: assume that no other update
  (such as a card's sync effect) lands between the two phases.
- ProjectCard.NotInstalledLabel: upper-casing is modelled for ASCII letters only, which is all
  the status strings contain.
- A `Patch` names only the keys the components write (install status, the two flags, error and
  logs). Patches that add other keys are not modelled.
- `undefined` and `null` are not distinguished. A record without `logs` and one with
  `logs: null` are both `None`.
