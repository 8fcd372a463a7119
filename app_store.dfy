/** The app-wide state that App.js keeps in React state and hands to every
    screen through its context: the project list, the theme flag, the
    `updateProjectStatus` merge-by-id and the theme toggle and persistence choice. */
module AppStore {
  import opened Projects

  /** `prevProjects.map(project => project.id === projectId ? { ...project, ...newStatus } : project)` */
  function Updated(ps: seq<Project>, id: ProjectId, patch: Patch): (r: seq<Project>)
    ensures |r| == |ps|
    ensures forall j :: 0 <= j < |ps| && ps[j].id != id ==> r[j] == ps[j]
    ensures forall j :: 0 <= j < |ps| && ps[j].id == id ==> r[j] == Apply(ps[j], patch)
  {
    seq(|ps|, j requires 0 <= j < |ps| => if ps[j].id == id then Apply(ps[j], patch) else ps[j])
  }

  /** The value saved under the 'theme' key whenever the flag changes. */
  function ThemeString(isDarkMode: bool): (s: string)
  {
    if isDarkMode then "dark" else "light"
  }

  /** The flag chosen at start-up from the stored 'theme' value, or, when none was
      stored, from the system colour scheme (which may itself be unknown). */
  function ThemeFromStorage(stored: Option<string>, systemScheme: Option<string>): bool
  {
    if stored.Some? then stored.value == "dark" else systemScheme == Some("dark")
  }

  class AppState {
    var projects: seq<Project>
    var isDarkMode: bool

    /** `useState(false)` and `useState(initialProjectData)` */
    constructor (initial: seq<Project>)
      ensures projects == initial && !isDarkMode
    {
      projects := initial;
      isDarkMode := false;
    }

    /** The theme half of `prepare`: read back the stored preference. */
    method RestoreTheme(stored: Option<string>, systemScheme: Option<string>)
      modifies this
      ensures isDarkMode == ThemeFromStorage(stored, systemScheme)
      ensures projects == old(projects)
    {
      if stored.Some? {
        isDarkMode := stored.value == "dark";
      } else {
        isDarkMode := systemScheme == Some("dark");
      }
    }

    /** What the theme-saving effect writes for the current flag. */
    function SavedTheme(): (s: string)
      reads this
      ensures s == "dark" || s == "light"
      ensures s == "dark" <==> isDarkMode
    {
      ThemeString(isDarkMode)
    }

    method ToggleTheme()
      modifies this
      ensures isDarkMode == !old(isDarkMode)
      ensures projects == old(projects)
    {
      isDarkMode := !isDarkMode;
    }

    method UpdateProjectStatus(id: ProjectId, patch: Patch)
      modifies this
      ensures projects == Updated(old(projects), id, patch)
      ensures isDarkMode == old(isDarkMode)
    {
      projects := Updated(projects, id, patch);
    }
  }

  /** Saving the flag and loading it back restores it, whatever the system scheme. */
  lemma ThemeRoundTrip(isDarkMode: bool, systemScheme: Option<string>)
    ensures ThemeFromStorage(Some(ThemeString(isDarkMode)), systemScheme) == isDarkMode
  {
  }

  /** The flag after a start-up as written, whatever the previous session stored: the
      theme-saving effect also runs on mount, while the flag still has its initial value,
      and its write of 'light' lands during the start-up wait, before the key is read. */
  function StartUpTheme(previous: Option<string>, systemScheme: Option<string>): bool
  {
    ThemeFromStorage(Some(ThemeString(false)), systemScheme)
  }

  /** A start-up after a session that saved 'dark' comes up in light mode. */
  lemma SavedDarkIsLost(systemScheme: Option<string>)
    ensures ThemeString(true) == "dark"
    ensures !StartUpTheme(Some(ThemeString(true)), systemScheme)
  {
    assert "light" != "dark" by {
      assert "light"[0] != "dark"[0];
    }
  }

  /** Start-up as written: construct the store, run the mount-time save effect over the
      previously stored value, then the theme half of `prepare`. */
  method StartUp(initial: seq<Project>, previous: Option<string>, systemScheme: Option<string>)
    returns (app: AppState, stored: Option<string>)
    ensures fresh(app)
    ensures app.projects == initial
    ensures stored == Some(ThemeString(false))
    ensures app.isDarkMode == StartUpTheme(previous, systemScheme) && !app.isDarkMode
  {
    app := new AppState(initial);
    stored := previous;
    stored := Some(app.SavedTheme());
    app.RestoreTheme(stored, systemScheme);
    assert "light" != "dark" by {
      assert "light"[0] != "dark"[0];
    }
  }

  /** Start-up as intended: read the previous session's value first and save only
      afterwards, so the saved preference survives a restart (`ThemeRoundTrip`). */
  method StartUpRestoring(initial: seq<Project>, previous: Option<string>, systemScheme: Option<string>)
    returns (app: AppState, stored: Option<string>)
    ensures fresh(app)
    ensures app.projects == initial
    ensures app.isDarkMode == ThemeFromStorage(previous, systemScheme)
    ensures stored == Some(ThemeString(app.isDarkMode))
  {
    app := new AppState(initial);
    app.RestoreTheme(previous, systemScheme);
    stored := Some(app.SavedTheme());
  }

  /** With nothing stored the system scheme decides, and only 'dark' means dark. */
  lemma MissingThemeFollowsSystem(systemScheme: Option<string>)
    ensures ThemeFromStorage(None, systemScheme) <==> systemScheme == Some("dark")
  {
  }

  /** Toggling twice gives back the original flag, and the store is left alone. */
  method ToggleTwiceRestores(app: AppState)
    modifies app
    ensures app.isDarkMode == old(app.isDarkMode) && app.projects == old(app.projects)
  {
    app.ToggleTheme();
    app.ToggleTheme();
  }

  /** An id no project has leaves the list exactly as it was. */
  lemma UpdateUnknownIdIsIdentity(ps: seq<Project>, id: ProjectId, patch: Patch)
    requires forall j :: 0 <= j < |ps| ==> ps[j].id != id
    ensures Updated(ps, id, patch) == ps
  {
  }

  /** The update keeps every record's id in its place, so the list's order is preserved. */
  lemma UpdateKeepsIds(ps: seq<Project>, id: ProjectId, patch: Patch)
    ensures SameIds(Updated(ps, id, patch), ps)
  {
  }

  /** Issuing the same update twice gives the list that one update gives. */
  lemma UpdateIdempotent(ps: seq<Project>, id: ProjectId, patch: Patch)
    ensures Updated(Updated(ps, id, patch), id, patch) == Updated(ps, id, patch)
  {
    var once := Updated(ps, id, patch);
    forall j | 0 <= j < |ps| ensures Updated(once, id, patch)[j] == once[j] {
      if ps[j].id == id { ApplyIdempotent(ps[j], patch); }
    }
  }

  /** Two updates of one id are one update with the combined patch. */
  lemma UpdateThen(ps: seq<Project>, id: ProjectId, a: Patch, b: Patch)
    ensures Updated(Updated(ps, id, a), id, b) == Updated(ps, id, Then(a, b))
  {
    forall j | 0 <= j < |ps| ensures Updated(Updated(ps, id, a), id, b)[j] == Updated(ps, id, Then(a, b))[j] {
      if ps[j].id == id { ApplyThen(ps[j], a, b); }
    }
  }

  /** Updates keyed by different ids commute: neither can change the other's record. */
  lemma UpdatesCommute(ps: seq<Project>, id1: ProjectId, p1: Patch, id2: ProjectId, p2: Patch)
    requires id1 != id2
    ensures Updated(Updated(ps, id1, p1), id2, p2) == Updated(Updated(ps, id2, p2), id1, p1)
  {
  }
}
