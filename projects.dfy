/** The project record held by the app's store, and the partial-record
    merge (`{ ...project, ...patch }`) through which every component changes it. */
module Projects {

  datatype Option<T> = None | Some(value: T)

  /** One entry of a partial record: the key is absent (`Keep`) or present with a value. */
  datatype Field<T> = Keep | Set(value: T)

  /** The three strings the components store in `installStatus`. */
  datatype InstallStatus = NotInstalled | Installing | Installed

  type ProjectId = int

  /** A project as the store holds it. `error` is null or a message;
      `logs` may be missing from a record (the components read it as `project.logs || []`). */
  datatype Project = Project(
    id: ProjectId,
    name: string,
    icon: string,
    description: string,
    scriptName: string,
    installStatus: InstallStatus,
    isLoading: bool,
    isRunning: bool,
    error: Option<string>,
    logs: Option<seq<string>>)

  /** A partial record passed to `updateProjectStatus`. It names only the keys the
      components ever write; the descriptive metadata and the id are never patched. */
  datatype Patch = Patch(
    installStatus: Field<InstallStatus>,
    isLoading: Field<bool>,
    isRunning: Field<bool>,
    error: Field<Option<string>>,
    logs: Field<seq<string>>)

  function Pick<T>(f: Field<T>, current: T): T
  {
    match f
    case Keep => current
    case Set(v) => v
  }

  /** `{ ...p, ...patch }` */
  function Apply(p: Project, patch: Patch): (r: Project)
    ensures r.id == p.id && r.name == p.name && r.icon == p.icon
    ensures r.description == p.description && r.scriptName == p.scriptName
  {
    p.(installStatus := Pick(patch.installStatus, p.installStatus),
       isLoading := Pick(patch.isLoading, p.isLoading),
       isRunning := Pick(patch.isRunning, p.isRunning),
       error := Pick(patch.error, p.error),
       logs := if patch.logs.Set? then Some(patch.logs.value) else p.logs)
  }

  /** The patch whose effect is `a` followed by `b`: `b`'s keys win. */
  function Then(a: Patch, b: Patch): Patch
  {
    Patch(if b.installStatus.Set? then b.installStatus else a.installStatus,
          if b.isLoading.Set? then b.isLoading else a.isLoading,
          if b.isRunning.Set? then b.isRunning else a.isRunning,
          if b.error.Set? then b.error else a.error,
          if b.logs.Set? then b.logs else a.logs)
  }

  function SetInstall(s: InstallStatus): Patch
  {
    Patch(Set(s), Keep, Keep, Keep, Keep)
  }

  /** JavaScript truthiness of `project.error`: null and "" are falsy. */
  predicate HasError(p: Project)
  {
    p.error.Some? && p.error.value != ""
  }

  /** `project.logs || []` */
  function LogsOrEmpty(p: Project): seq<string>
  {
    match p.logs
    case None => []
    case Some(l) => l
  }

  /** No two projects of the list share an id. */
  predicate UniqueIds(ps: seq<Project>)
  {
    forall i, j :: 0 <= i < j < |ps| ==> ps[i].id != ps[j].id
  }

  /** Two lists hold, position by position, records with the same ids. */
  predicate SameIds(ps: seq<Project>, qs: seq<Project>)
  {
    |ps| == |qs| && forall j :: 0 <= j < |ps| ==> ps[j].id == qs[j].id
  }

  /** Each key of a patch either overwrites the field or leaves the old value. */
  lemma ApplyMerges(p: Project, patch: Patch)
    ensures var r := Apply(p, patch);
      && (patch.installStatus.Set? ==> r.installStatus == patch.installStatus.value)
      && (patch.installStatus.Keep? ==> r.installStatus == p.installStatus)
      && (patch.isLoading.Set? ==> r.isLoading == patch.isLoading.value)
      && (patch.isLoading.Keep? ==> r.isLoading == p.isLoading)
      && (patch.isRunning.Set? ==> r.isRunning == patch.isRunning.value)
      && (patch.isRunning.Keep? ==> r.isRunning == p.isRunning)
      && (patch.error.Set? ==> r.error == patch.error.value)
      && (patch.error.Keep? ==> r.error == p.error)
      && (patch.logs.Set? ==> r.logs == Some(patch.logs.value))
      && (patch.logs.Keep? ==> r.logs == p.logs)
  {
  }

  /** Merging the same patch a second time changes nothing. */
  lemma ApplyIdempotent(p: Project, patch: Patch)
    ensures Apply(Apply(p, patch), patch) == Apply(p, patch)
  {
  }

  /** Two successive merges are one merge of the combined patch. */
  lemma ApplyThen(p: Project, a: Patch, b: Patch)
    ensures Apply(Apply(p, a), b) == Apply(p, Then(a, b))
  {
  }
}
