/** The dashboard's "run all" and "stop all" buttons. Each walks the project list
    as it was when pressed, patches every selected project at once (phase one) and
    starts a timer per project whose callback applies a completion patch built from
    that same snapshot (phase two). */
module GlobalControls {
  import opened Projects
  import opened Lists
  import opened AppStore
  import opened TermuxShell
  import opened ProjectCard

  datatype Bulk = RunAll | StopAll

  /** Phase one is the patch issued in the loop; phase two the timer callback's. */
  datatype Phase = Start | Done

  /** Which projects a bulk operation touches. Run-all does not look at `isLoading`. */
  predicate Selected(op: Bulk, p: Project)
  {
    match op
    case RunAll => !p.isRunning && p.installStatus == Installed
    case StopAll => p.isRunning
  }

  function Selector(op: Bulk): Project -> bool
  {
    p => Selected(op, p)
  }

  /** The patch issued for the snapshot record `p`; logs are rebuilt from `p.logs`. */
  function PhasePatch(op: Bulk, phase: Phase, p: Project): Patch
  {
    match (op, phase)
    case (RunAll, Start) =>
      Patch(Keep, Set(true), Set(false), Set(None), Set(["Starting " + p.name + "..."]))
    case (RunAll, Done) =>
      Patch(Keep, Set(false), Set(true), Keep, Set(LogsOrEmpty(p) + [p.name + " started successfully."]))
    case (StopAll, Start) =>
      Patch(Keep, Set(true), Set(true), Keep, Set(LogsOrEmpty(p) + ["Stopping " + p.name + "..."]))
    case (StopAll, Done) =>
      Patch(Keep, Set(false), Set(false), Keep, Set(LogsOrEmpty(p) + [p.name + " stopped."]))
  }

  /** The patch function of a phase: the record it is given is the snapshot record. */
  function PatchFn(op: Bulk, phase: Phase): Project -> Patch
  {
    p => PhasePatch(op, phase, p)
  }

  /** The store after `updateProjectStatus(q.id, f(q))` for each record `q` of `todo`,
      issued in list order. */
  function UpdateEach(ps: seq<Project>, todo: seq<Project>, f: Project -> Patch): seq<Project>
    decreases |todo|
  {
    if |todo| == 0 then ps
    else
      var last := todo[|todo| - 1];
      Updated(UpdateEach(ps, todo[..|todo| - 1], f), last.id, f(last))
  }

  /** Issuing one more record's patch after the others. */
  lemma UpdateEachSnoc(ps: seq<Project>, todo: seq<Project>, x: Project, f: Project -> Patch)
    ensures UpdateEach(ps, todo + [x], f) == Updated(UpdateEach(ps, todo, f), x.id, f(x))
  {
    assert (todo + [x])[..|todo|] == todo;
  }

  /** The synchronous part of `runAllProjects` / `stopAllProjects`. `pending` lists the
      snapshot records whose completion timers were started, in list order. */
  method BulkControl(store: AppState, op: Bulk) returns (pending: seq<Project>)
    modifies store
    ensures pending == Filter(old(store.projects), Selector(op))
    ensures store.projects == UpdateEach(old(store.projects), pending, PatchFn(op, Start))
    ensures store.isDarkMode == old(store.isDarkMode)
  {
    var snapshot := store.projects;
    pending := [];
    var i := 0;
    while i < |snapshot|
      invariant 0 <= i <= |snapshot|
      invariant pending == Filter(snapshot[..i], Selector(op))
      invariant store.projects == UpdateEach(snapshot, pending, PatchFn(op, Start))
      invariant store.isDarkMode == old(store.isDarkMode)
    {
      var project := snapshot[i];
      FilterSnoc(snapshot, Selector(op), i);
      if Selected(op, project) {
        UpdateEachSnoc(snapshot, pending, project, PatchFn(op, Start));
        assert PatchFn(op, Start)(project) == PhasePatch(op, Start, project);
        store.UpdateProjectStatus(project.id, PhasePatch(op, Start, project));
        pending := pending + [project];
      }
      i := i + 1;
    }
    assert snapshot[..|snapshot|] == snapshot;
  }

  method RunAllProjects(store: AppState) returns (pending: seq<Project>)
    modifies store
    ensures pending == Filter(old(store.projects), Selector(RunAll))
    ensures store.projects == UpdateEach(old(store.projects), pending, PatchFn(RunAll, Start))
    ensures store.isDarkMode == old(store.isDarkMode)
  {
    pending := BulkControl(store, RunAll);
  }

  method StopAllProjects(store: AppState) returns (pending: seq<Project>)
    modifies store
    ensures pending == Filter(old(store.projects), Selector(StopAll))
    ensures store.projects == UpdateEach(old(store.projects), pending, PatchFn(StopAll, Start))
    ensures store.isDarkMode == old(store.isDarkMode)
  {
    pending := BulkControl(store, StopAll);
  }

  /** One completion timer firing for the snapshot record `project`. */
  method FireTimer(store: AppState, op: Bulk, project: Project)
    modifies store
    ensures store.projects == Updated(old(store.projects), project.id, PhasePatch(op, Done, project))
    ensures store.isDarkMode == old(store.isDarkMode)
  {
    store.UpdateProjectStatus(project.id, PhasePatch(op, Done, project));
  }

  /** All pending timers firing, in list order. */
  method FireTimers(store: AppState, op: Bulk, pending: seq<Project>)
    modifies store
    ensures store.projects == UpdateEach(old(store.projects), pending, PatchFn(op, Done))
    ensures store.isDarkMode == old(store.isDarkMode)
  {
    var i := 0;
    while i < |pending|
      invariant 0 <= i <= |pending|
      invariant store.projects == UpdateEach(old(store.projects), pending[..i], PatchFn(op, Done))
      invariant store.isDarkMode == old(store.isDarkMode)
    {
      assert pending[..i + 1] == pending[..i] + [pending[i]];
      UpdateEachSnoc(old(store.projects), pending[..i], pending[i], PatchFn(op, Done));
      assert PatchFn(op, Done)(pending[i]) == PhasePatch(op, Done, pending[i]);
      FireTimer(store, op, pending[i]);
      i := i + 1;
    }
    assert pending[..|pending|] == pending;
  }

  /** Updating the id at position `k` of a list whose ids are unique touches only that position. */
  lemma UpdatedOne(ps: seq<Project>, s: seq<Project>, k: nat, patch: Patch)
    requires UniqueIds(s) && SameIds(ps, s) && k < |s|
    ensures var r := Updated(ps, s[k].id, patch);
      && SameIds(r, s)
      && r[k] == Apply(ps[k], patch)
      && forall j :: 0 <= j < |s| && j != k ==> r[j] == ps[j]
  {
    var r := Updated(ps, s[k].id, patch);
    forall j | 0 <= j < |s| && j != k
      ensures r[j] == ps[j]
    {
      assert ps[j].id == s[j].id;
    }
  }

  /** Walking the snapshot `s` up to position `k` and patching, in the current list, the
      record with the id of each selected snapshot record: the same updates as a phase's
      pending list, without the list. */
  function Walk(cur: seq<Project>, s: seq<Project>, sel: Project -> bool, f: Project -> Patch, k: nat): seq<Project>
    requires k <= |s|
  {
    if k == 0 then cur
    else
      var prev := Walk(cur, s, sel, f, k - 1);
      if sel(s[k - 1]) then Updated(prev, s[k - 1].id, f(s[k - 1])) else prev
  }

  /** Patching the filtered snapshot records is walking the snapshot. */
  lemma {:induction false} WalkFilter(cur: seq<Project>, s: seq<Project>, sel: Project -> bool, f: Project -> Patch, k: nat)
    requires k <= |s|
    ensures UpdateEach(cur, Filter(s[..k], sel), f) == Walk(cur, s, sel, f, k)
  {
    if k == 0 {
      assert Filter(s[..0], sel) == [];
    } else {
      WalkFilter(cur, s, sel, f, k - 1);
      FilterSnoc(s, sel, k - 1);
      if sel(s[k - 1]) {
        UpdateEachSnoc(cur, Filter(s[..k - 1], sel), s[k - 1], f);
      } else {
        assert Filter(s[..k], sel) == Filter(s[..k - 1], sel);
      }
    }
  }

  /** Walking the snapshot `s` (ids unique) over a current list `cur` that holds the same
      ids in the same places patches exactly the selected positions up to `k`, each with
      the patch built from its own snapshot record, and leaves every other record as it was. */
  lemma {:induction false} WalkAt(s: seq<Project>, cur: seq<Project>, sel: Project -> bool, f: Project -> Patch, k: nat)
    requires UniqueIds(s) && SameIds(cur, s) && k <= |s|
    ensures var r := Walk(cur, s, sel, f, k);
      && SameIds(r, s)
      && (forall j :: 0 <= j < k && sel(s[j]) ==> r[j] == Apply(cur[j], f(s[j])))
      && (forall j :: 0 <= j < |s| && !(j < k && sel(s[j])) ==> r[j] == cur[j])
  {
    if k > 0 {
      WalkAt(s, cur, sel, f, k - 1);
      if sel(s[k - 1]) {
        UpdatedOne(Walk(cur, s, sel, f, k - 1), s, k - 1, f(s[k - 1]));
      }
    }
  }

  /** A bulk phase touches exactly the selected projects of the snapshot. */
  lemma BulkTouchesExactlySelected(s: seq<Project>, cur: seq<Project>, op: Bulk, phase: Phase)
    requires UniqueIds(s) && SameIds(cur, s)
    ensures var r := UpdateEach(cur, Filter(s, Selector(op)), PatchFn(op, phase));
      && SameIds(r, s)
      && (forall j :: 0 <= j < |s| && Selected(op, s[j]) ==> r[j] == Apply(cur[j], PhasePatch(op, phase, s[j])))
      && (forall j :: 0 <= j < |s| && !Selected(op, s[j]) ==> r[j] == cur[j])
  {
    WalkAt(s, cur, Selector(op), PatchFn(op, phase), |s|);
    WalkFilter(cur, s, Selector(op), PatchFn(op, phase), |s|);
    assert s[..|s|] == s;
  }

  /** Run-all from start to finish (ids unique): every selected project ends running,
      not loading, with no error and with its logs at press time followed by the success
      line, so the "Starting" line of phase one is gone; between the phases it is loading,
      not running, error-free and shows only the "Starting" line. A selected project
      that was loading is reset the same way. Every other project, including a loading
      one that is running or not installed, is left exactly as it was. */
  lemma RunAllOutcome(s: seq<Project>)
    requires UniqueIds(s)
    ensures var pending := Filter(s, Selector(RunAll));
      var mid := UpdateEach(s, pending, PatchFn(RunAll, Start));
      var fin := UpdateEach(mid, pending, PatchFn(RunAll, Done));
      && |mid| == |s| && |fin| == |s|
      && (forall j :: 0 <= j < |s| && Selected(RunAll, s[j]) ==>
            && mid[j] == s[j].(isLoading := true, isRunning := false, error := None,
                               logs := Some(["Starting " + s[j].name + "..."]))
            && fin[j] == s[j].(isLoading := false, isRunning := true, error := None,
                               logs := Some(LogsOrEmpty(s[j]) + [s[j].name + " started successfully."])))
      && (forall j :: 0 <= j < |s| && !Selected(RunAll, s[j]) ==> mid[j] == s[j] && fin[j] == s[j])
  {
    var pending := Filter(s, Selector(RunAll));
    BulkTouchesExactlySelected(s, s, RunAll, Start);
    var mid := UpdateEach(s, pending, PatchFn(RunAll, Start));
    BulkTouchesExactlySelected(s, mid, RunAll, Done);
  }

  /** Stop-all from start to finish (ids unique): every running project ends stopped and
      not loading, with its logs at press time followed by the stopped line (the
      "Stopping" line of phase one is gone), and with its install status and error as they
      were; between the phases it is loading and still running. Projects that were not
      running are left exactly as they were. */
  lemma StopAllOutcome(s: seq<Project>)
    requires UniqueIds(s)
    ensures var pending := Filter(s, Selector(StopAll));
      var mid := UpdateEach(s, pending, PatchFn(StopAll, Start));
      var fin := UpdateEach(mid, pending, PatchFn(StopAll, Done));
      && |mid| == |s| && |fin| == |s|
      && (forall j :: 0 <= j < |s| && s[j].isRunning ==>
            && mid[j] == s[j].(isLoading := true, isRunning := true,
                               logs := Some(LogsOrEmpty(s[j]) + ["Stopping " + s[j].name + "..."]))
            && fin[j] == s[j].(isLoading := false, isRunning := false,
                               logs := Some(LogsOrEmpty(s[j]) + [s[j].name + " stopped."])))
      && (forall j :: 0 <= j < |s| && !s[j].isRunning ==> mid[j] == s[j] && fin[j] == s[j])
  {
    var pending := Filter(s, Selector(StopAll));
    BulkTouchesExactlySelected(s, s, StopAll, Start);
    var mid := UpdateEach(s, pending, PatchFn(StopAll, Start));
    BulkTouchesExactlySelected(s, mid, StopAll, Done);
  }

  /** Run-all writes only the store, not the cards' shell sessions: once it has
      finished, the sync effect of a card whose shell is not running copies that
      flag back, so the project it had just marked running is shown stopped again. */
  lemma {:induction false} CardSyncUndoesRunAll(s: seq<Project>, j: nat, st: ShellState)
    requires UniqueIds(s) && j < |s| && Selected(RunAll, s[j]) && !st.isRunning
    ensures var pending := Filter(s, Selector(RunAll));
      var fin := UpdateEach(UpdateEach(s, pending, PatchFn(RunAll, Start)), pending, PatchFn(RunAll, Done));
      && j < |fin| && fin[j].isRunning
      && var synced := Synced(fin, fin[j], st);
         j < |synced| && !synced[j].isRunning
  {
    RunAllOutcome(s);
    var pending := Filter(s, Selector(RunAll));
    var fin := UpdateEach(UpdateEach(s, pending, PatchFn(RunAll, Start)), pending, PatchFn(RunAll, Done));
    SyncAligns(fin, j, st);
  }
}
