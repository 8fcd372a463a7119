/** The dashboard's project summary: how many projects there are, how many
    are installed, how many are running and how many show an error. */
module HomeScreen {
  import opened Projects
  import opened Lists

  /** The four numbers the summary card shows. */
  datatype Summary = Summary(total: nat, installed: nat, running: nat, withError: nat)

  function IsInstalled(): Project -> bool
  {
    (p: Project) => p.installStatus == Installed
  }

  function IsRunning(): Project -> bool
  {
    (p: Project) => p.isRunning
  }

  /** `p => p.error`, read for its truthiness. */
  function ShowsError(): Project -> bool
  {
    p => HasError(p)
  }

  /** `projects.length` and the three `projects.filter(...).length` counts. */
  function Dashboard(ps: seq<Project>): (d: Summary)
    ensures d.total == |ps|
    ensures d.installed <= d.total && d.running <= d.total && d.withError <= d.total
  {
    Summary(|ps|, |Filter(ps, IsInstalled())|, |Filter(ps, IsRunning())|, |Filter(ps, ShowsError())|)
  }

  /** Each count is the number of positions holding a project of its kind. */
  lemma DashboardCounts(ps: seq<Project>)
    ensures Dashboard(ps).installed == |set i | 0 <= i < |ps| && ps[i].installStatus == Installed|
    ensures Dashboard(ps).running == |set i | 0 <= i < |ps| && ps[i].isRunning|
    ensures Dashboard(ps).withError == |set i | 0 <= i < |ps| && HasError(ps[i])|
  {
    FilterCountsIndexes(ps, IsInstalled());
    assert IndexesWhere(ps, IsInstalled()) == set i | 0 <= i < |ps| && ps[i].installStatus == Installed;
    FilterCountsIndexes(ps, IsRunning());
    assert IndexesWhere(ps, IsRunning()) == set i | 0 <= i < |ps| && ps[i].isRunning;
    FilterCountsIndexes(ps, ShowsError());
    assert IndexesWhere(ps, ShowsError()) == set i | 0 <= i < |ps| && HasError(ps[i]);
  }

  /** Counting picks exactly the projects of the kind counted: nothing else
      is counted and no project of that kind is missed. */
  lemma CountedProjects(ps: seq<Project>)
    ensures forall p :: p in Filter(ps, IsInstalled()) <==> p in ps && p.installStatus == Installed
    ensures forall p :: p in Filter(ps, IsRunning()) <==> p in ps && p.isRunning
    ensures forall p :: p in Filter(ps, ShowsError()) <==> p in ps && HasError(p)
  {
    FilterMembers(ps, IsInstalled());
    FilterMembers(ps, IsRunning());
    FilterMembers(ps, ShowsError());
  }

  /** Adding one project raises the total by one and each other count by one
      exactly when the new project is of that kind. */
  lemma AddProject(ps: seq<Project>, p: Project)
    ensures var before, after := Dashboard(ps), Dashboard(ps + [p]);
      && after.total == before.total + 1
      && after.installed == before.installed + (if p.installStatus == Installed then 1 else 0)
      && after.running == before.running + (if p.isRunning then 1 else 0)
      && after.withError == before.withError + (if HasError(p) then 1 else 0)
  {
    assert (ps + [p])[..|ps|] == ps;
  }
}
