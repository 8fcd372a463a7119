/** One project's card: the install/uninstall button, the Run/Stop button that
    installs first when needed, the two status labels, and the effect that copies
    the card's shell state back into the store. */
module ProjectCard {
  import opened Projects
  import opened AppStore
  import opened TermuxShell

  /** The string the store keeps in `installStatus`. */
  function StatusName(s: InstallStatus): string
  {
    match s
    case NotInstalled => "not_installed"
    case Installing => "installing"
    case Installed => "installed"
  }

  /** `s.replace(from, to)` with a one-character string pattern. */
  function ReplaceFirst(s: string, from: char, to: char): (r: string)
    ensures |r| == |s|
  {
    if s == [] then []
    else if s[0] == from then [to] + s[1..]
    else [s[0]] + ReplaceFirst(s[1..], from, to)
  }

  /** `toUpperCase` on one character; the status strings are plain ASCII. */
  function UpperChar(c: char): (u: char)
  {
    if 'a' <= c <= 'z' then (c as int - 32) as char else c
  }

  function ToUpper(s: string): (r: string)
    ensures |r| == |s|
    ensures forall i :: 0 <= i < |s| ==> r[i] == UpperChar(s[i])
  {
    if s == [] then [] else [UpperChar(s[0])] + ToUpper(s[1..])
  }

  /** `project.installStatus.replace('_', ' ').toUpperCase()` */
  function InstallLabel(s: InstallStatus): string
  {
    ToUpper(ReplaceFirst(StatusName(s), '_', ' '))
  }

  /** Upper-casing is decided character by character. */
  lemma UpperOf(s: string, t: string)
    requires |s| == |t|
    requires forall i :: 0 <= i < |s| ==> UpperChar(s[i]) == t[i]
    ensures ToUpper(s) == t
  {
  }

  /** A string without the pattern is returned as it is. */
  lemma {:induction false} ReplaceNothing(s: string, from: char, to: char)
    requires from !in s
    ensures ReplaceFirst(s, from, to) == s
  {
    if s != [] {
      ReplaceNothing(s[1..], from, to);
    }
  }

  /** Only the first occurrence is replaced: whatever follows it, including further
      occurrences, is kept. */
  lemma {:induction false} ReplaceFirstAt(a: string, b: string, from: char, to: char)
    requires from !in a
    ensures ReplaceFirst(a + [from] + b, from, to) == a + [to] + b
  {
    if a != [] {
      assert (a + [from] + b)[1..] == a[1..] + [from] + b;
      ReplaceFirstAt(a[1..], b, from, to);
    }
  }

  lemma NotInstalledParts()
    ensures "not_installed" == "not" + ['_'] + "installed"
    ensures "not installed" == "not" + [' '] + "installed"
  {
  }

  lemma SpacedNotInstalled()
    ensures ReplaceFirst("not_installed", '_', ' ') == "not installed"
  {
    NotInstalledParts();
    ReplaceFirstAt("not", "installed", '_', ' ');
  }

  lemma UpperNotInstalled()
    ensures ToUpper("not installed") == "NOT INSTALLED"
  {
    UpperOf("not installed", "NOT INSTALLED");
  }

  lemma UpperInstalling()
    ensures ToUpper("installing") == "INSTALLING"
  {
    UpperOf("installing", "INSTALLING");
  }

  lemma UpperInstalled()
    ensures ToUpper("installed") == "INSTALLED"
  {
    UpperOf("installed", "INSTALLED");
  }

  /** `not_installed` shows as NOT INSTALLED: its underscore becomes a space. */
  lemma NotInstalledLabel()
    ensures InstallLabel(NotInstalled) == "NOT INSTALLED"
  {
    SpacedNotInstalled();
    UpperNotInstalled();
  }

  /** `installing` has no underscore and shows as INSTALLING. */
  lemma InstallingLabel()
    ensures InstallLabel(Installing) == "INSTALLING"
  {
    ReplaceNothing("installing", '_', ' ');
    UpperInstalling();
  }

  /** `installed` has no underscore and shows as INSTALLED. */
  lemma InstalledLabel()
    ensures InstallLabel(Installed) == "INSTALLED"
  {
    ReplaceNothing("installed", '_', ' ');
    UpperInstalled();
  }

  /** The run-status label, LOADING over RUNNING over ERROR over STOPPED. */
  function RunStatusLabel(p: Project): string
  {
    if p.isLoading then "LOADING"
    else if p.isRunning then "RUNNING"
    else if HasError(p) then "ERROR"
    else "STOPPED"
  }

  /** `getRunStatusBadge`: the classes of the run-status pill. */
  function RunStatusBadge(p: Project): string
  {
    if p.isLoading then "bg-blue-500 text-white"
    else if p.isRunning then "bg-green-500 text-white"
    else if HasError(p) then "bg-red-500 text-white"
    else "bg-gray-500 text-white"
  }

  /** Each label is shown exactly in its own case of the priority order. */
  lemma RunLabelPriority(p: Project)
    ensures RunStatusLabel(p) == "LOADING" <==> p.isLoading
    ensures RunStatusLabel(p) == "RUNNING" <==> !p.isLoading && p.isRunning
    ensures RunStatusLabel(p) == "ERROR" <==> !p.isLoading && !p.isRunning && HasError(p)
    ensures RunStatusLabel(p) == "STOPPED" <==> !p.isLoading && !p.isRunning && !HasError(p)
  {
  }

  /** The badge colour follows the same order as the label: two projects show the
      same label exactly when they show the same badge. */
  lemma BadgeFollowsLabel(p: Project, q: Project)
    ensures RunStatusLabel(p) == RunStatusLabel(q) <==> RunStatusBadge(p) == RunStatusBadge(q)
  {
  }

  /** `disabled` of the install/uninstall button. */
  predicate InstallButtonDisabled(p: Project)
  {
    p.isLoading || p.isRunning || p.installStatus == Installing
  }

  /** `disabled` of the Run/Stop button. */
  predicate RunButtonDisabled(p: Project)
  {
    p.isLoading
  }

  /** The store after the install button's `onPress` for the rendered record `p`. */
  function InstallPressed(ps: seq<Project>, p: Project): seq<Project>
  {
    match p.installStatus
    case NotInstalled => Updated(ps, p.id, SetInstall(Installing))
    case Installed => Updated(ps, p.id, SetInstall(NotInstalled))
    case Installing => ps
  }

  /** The install axis: a press moves not_installed to installing and installed to
      not_installed, does nothing from installing, and never moves straight to installing
      from installed. The timer that follows sets installed. */
  lemma InstallAxis(ps: seq<Project>, p: Project, j: nat)
    requires j < |ps| && ps[j].id == p.id
    ensures p.installStatus == NotInstalled ==> InstallPressed(ps, p)[j].installStatus == Installing
    ensures p.installStatus == Installed ==> InstallPressed(ps, p)[j].installStatus == NotInstalled
    ensures p.installStatus == Installing ==> InstallPressed(ps, p) == ps
    ensures Updated(InstallPressed(ps, p), p.id, SetInstall(Installed))[j].installStatus == Installed
  {
  }

  /** No running project is uninstalled: every record is running only when installed,
      and a press the button lets through keeps that so (ids are unique and the pressed
      card shows a record of the store). */
  lemma {:induction false} PressKeepsRunningInstalled(ps: seq<Project>, p: Project)
    requires UniqueIds(ps) && p in ps
    requires !InstallButtonDisabled(p)
    requires forall j :: 0 <= j < |ps| ==> ps[j].isRunning ==> ps[j].installStatus == Installed
    ensures var r := InstallPressed(ps, p);
      forall j :: 0 <= j < |r| ==> r[j].isRunning ==> r[j].installStatus == Installed
  {
    var k :| 0 <= k < |ps| && ps[k] == p;
    var r := InstallPressed(ps, p);
    forall j | 0 <= j < |r| ensures r[j].isRunning ==> r[j].installStatus == Installed {
      if ps[j].id == p.id {
        assert j == k;
      }
    }
  }

  /** The install button's `onPress`; `timerScheduled` says whether the two-second
      timer that will mark the project installed was started. */
  method PressInstallButton(store: AppState, project: Project) returns (timerScheduled: bool)
    modifies store
    ensures timerScheduled <==> project.installStatus == NotInstalled
    ensures store.projects == InstallPressed(old(store.projects), project)
    ensures store.isDarkMode == old(store.isDarkMode)
  {
    timerScheduled := false;
    if project.installStatus == NotInstalled {
      store.UpdateProjectStatus(project.id, SetInstall(Installing));
      timerScheduled := true;
    } else if project.installStatus == Installed {
      store.UpdateProjectStatus(project.id, SetInstall(NotInstalled));
    }
  }

  /** The timer scheduled by the install button. */
  method InstallTimerFired(store: AppState, project: Project)
    modifies store
    ensures store.projects == Updated(old(store.projects), project.id, SetInstall(Installed))
    ensures store.isDarkMode == old(store.isDarkMode)
  {
    store.UpdateProjectStatus(project.id, SetInstall(Installed));
  }

  /** The command the Run button issues. */
  function RunCommandLine(p: Project): string
  {
    "python " + p.scriptName + ".py"
  }

  /** Whether a press of the Run/Stop button takes the run path. */
  predicate TakesRunPath(p: Project)
  {
    !p.isRunning && !p.isLoading
  }

  /** A press the Run/Stop button lets through takes the stop path exactly when the
      rendered record is running. */
  lemma EnabledRunButton(p: Project)
    requires !RunButtonDisabled(p)
    ensures TakesRunPath(p) <==> !p.isRunning
  {
  }

  /** The store after the run path's implicit install (installing, then installed). */
  function InstalledBeforeRun(ps: seq<Project>, p: Project): seq<Project>
  {
    if p.installStatus == NotInstalled
    then Updated(Updated(ps, p.id, SetInstall(Installing)), p.id, SetInstall(Installed))
    else ps
  }

  /** The implicit install leaves every matching record installed and changes nothing
      else; an already installed (or installing) project's store is not touched. */
  lemma ImplicitInstall(ps: seq<Project>, p: Project)
    ensures p.installStatus != NotInstalled ==> InstalledBeforeRun(ps, p) == ps
    ensures p.installStatus == NotInstalled ==> InstalledBeforeRun(ps, p) == Updated(ps, p.id, SetInstall(Installed))
  {
    if p.installStatus == NotInstalled {
      UpdateThen(ps, p.id, SetInstall(Installing), SetInstall(Installed));
      assert Then(SetInstall(Installing), SetInstall(Installed)) == SetInstall(Installed);
    }
  }

  /** `handleRunPress`, with the two-second install wait taken as elapsed. `command` is
      what was passed to `runCommand`, or None when the stop path was taken;
      `runResult` and `draw` are used on the run path, `stopResult` on the stop path. */
  method HandleRunPress(store: AppState, shell: Shell, project: Project,
                        runResult: ExecResult, draw: nat, stopResult: StopResult)
    returns (command: Option<string>)
    modifies store, shell
    ensures command.Some? <==> TakesRunPath(project)
    ensures command.Some? ==> command.value == RunCommandLine(project)
    ensures TakesRunPath(project) ==>
      && store.projects == InstalledBeforeRun(old(store.projects), project)
      && shell.State() == RunSettled(RunStarted(old(shell.State())), runResult, draw)
    ensures !TakesRunPath(project) ==>
      && store.projects == old(store.projects)
      && shell.State() == Stopped(old(shell.State()), stopResult)
    ensures store.isDarkMode == old(store.isDarkMode)
  {
    if !project.isRunning && !project.isLoading {
      if project.installStatus == NotInstalled {
        store.UpdateProjectStatus(project.id, SetInstall(Installing));
        store.UpdateProjectStatus(project.id, SetInstall(Installed));
      }
      command := Some(RunCommandLine(project));
      shell.RunCommand(command.value, runResult, draw);
    } else {
      command := None;
      shell.StopCommand(stopResult);
    }
  }

  /** The sync effect's change test (`JSON.stringify` of two string arrays is equal
      exactly when the arrays are). */
  predicate OutOfSync(st: ShellState, p: Project)
  {
    st.isRunning != p.isRunning || st.isLoading != p.isLoading
    || st.error != p.error || p.logs != Some(st.output)
  }

  function SyncPatch(st: ShellState): Patch
  {
    Patch(Keep, Set(st.isLoading), Set(st.isRunning), Set(st.error), Set(st.output))
  }

  /** The store after the sync effect of the card showing `p`. */
  function Synced(ps: seq<Project>, p: Project, st: ShellState): seq<Project>
  {
    if OutOfSync(st, p) then Updated(ps, p.id, SyncPatch(st)) else ps
  }

  /** After the effect, the card's record holds the shell's flags, error and output,
      and keeps its install status and metadata; a record already in step is left as it was,
      and so are the records of other ids. */
  lemma SyncAligns(ps: seq<Project>, k: nat, st: ShellState)
    requires k < |ps|
    ensures var r := Synced(ps, ps[k], st);
      && |r| == |ps|
      && r[k].isRunning == st.isRunning && r[k].isLoading == st.isLoading
      && r[k].error == st.error && r[k].logs == Some(st.output)
      && r[k].installStatus == ps[k].installStatus && r[k].id == ps[k].id && r[k].name == ps[k].name
      && (!OutOfSync(st, ps[k]) ==> r == ps)
      && (forall j :: 0 <= j < |ps| && ps[j].id != ps[k].id ==> r[j] == ps[j])
  {
  }

  /** The effect, as run after a render of the card showing `project`. */
  method SyncEffect(store: AppState, shell: Shell, project: Project)
    modifies store
    ensures store.projects == Synced(old(store.projects), project, shell.State())
    ensures store.isDarkMode == old(store.isDarkMode)
  {
    if shell.isRunning != project.isRunning || shell.isLoading != project.isLoading
       || shell.error != project.error || project.logs != Some(shell.output)
    {
      store.UpdateProjectStatus(project.id,
        Patch(Keep, Set(shell.isLoading), Set(shell.isRunning), Set(shell.error), Set(shell.output)));
    }
  }
}
