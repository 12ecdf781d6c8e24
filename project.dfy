/** The `currentProject` selector of the dashboard's global store
    (packages/crusher-app/src/store/atoms/global/project.ts). */
module Project {
  import opened Wrappers
  import opened Seqs

  datatype Project = Project(id: int, name: string)

  /** The selector's three kinds of answer: `null`, `undefined`, or a project. */
  datatype Selection = Null | Undefined | Found(project: Project)

  predicate HasId(p: Project, selectedProjectId: Option<int>) {
    selectedProjectId == Some(p.id)
  }

  /** `currentProject`: `null` while the projects are not loaded, otherwise
      the first project whose id is the selected one, or `undefined` when
      none is (`filter(...)[0]` of an empty list). */
  function CurrentProject(projects: Option<seq<Project>>, selectedProjectId: Option<int>): (r: Selection)
    ensures r.Null? <==> projects.None?
    ensures r.Found? ==> selectedProjectId == Some(r.project.id) && projects.Some? && r.project in projects.value
    ensures r.Found? ==> exists k :: 0 <= k < |projects.value| && projects.value[k] == r.project
                           && forall j :: 0 <= j < k ==> !HasId(projects.value[j], selectedProjectId)
    ensures r.Undefined? <==> projects.Some? && forall j :: 0 <= j < |projects.value| ==> !HasId(projects.value[j], selectedProjectId)
  {
    match projects
    case None => Null
    case Some(ps) =>
      var matching := Filter(ps, (p: Project) => HasId(p, selectedProjectId));
      FilterHeadIsFirst(ps, (p: Project) => HasId(p, selectedProjectId));
      if matching == [] then Undefined else Found(matching[0])
  }
}
