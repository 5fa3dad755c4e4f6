/**
 * The project-import service: a project export becomes either the template
 * of a new project (project properties plus fresh drafts, without progress)
 * or is forwarded unchanged to the project service.
 */
module ProjectImport {
  import opened Wrappers
  import opened OlMap
  import opened Drafts

  /** One task of a project export; `geometry` is the encoded feature document, if any. */
  datatype TaskExport = TaskExport(
    name: string,
    processPoints: int,
    maxProcessPoints: int,
    geometry: Option<string>,
    assignedUser: Option<string>)

  datatype ProjectExport = ProjectExport(
    name: string,
    description: string,
    tasks: seq<TaskExport>,
    users: seq<string>,
    owner: string)

  /** `!!t.geometry`: the geometry is defined and not the empty string. */
  predicate HasGeometry(t: TaskExport) {
    t.geometry.Some? && t.geometry.value != ""
  }

  /**
   * `Math.max(...tasks.map(t => t.maxProcessPoints))`: an upper bound of
   * every task's maximum process points that one of them attains.
   */
  function MaxProcessPoints(tasks: seq<TaskExport>): (m: int)
    requires tasks != []
    ensures forall i :: 0 <= i < |tasks| ==> tasks[i].maxProcessPoints <= m
    ensures exists i :: 0 <= i < |tasks| && tasks[i].maxProcessPoints == m
  {
    if |tasks| == 1 then tasks[0].maxProcessPoints
    else
      var rest := MaxProcessPoints(tasks[1..]);
      assert forall i :: 1 <= i < |tasks| ==> tasks[i] == tasks[1..][i - 1];
      if tasks[0].maxProcessPoints >= rest then tasks[0].maxProcessPoints
      else
        assert exists i :: 1 <= i < |tasks| && tasks[i].maxProcessPoints == rest by {
          var j :| 0 <= j < |tasks[1..]| && tasks[1..][j].maxProcessPoints == rest;
          assert tasks[j + 1] == tasks[1..][j];
        }
        rest
  }

  /** The properties of the new project: the export's name and description and the largest task capacity. */
  function TemplateProperties(project: ProjectExport): (p: ProjectProperties)
    requires project.tasks != []
    ensures p.projectName == project.name && p.projectDescription == project.description
    ensures forall i :: 0 <= i < |project.tasks| ==> project.tasks[i].maxProcessPoints <= p.maxProcessPoints
    ensures exists i :: 0 <= i < |project.tasks| && project.tasks[i].maxProcessPoints == p.maxProcessPoints
  {
    ProjectProperties(project.name, MaxProcessPoints(project.tasks), project.description)
  }

  /** `a` is `b` with some elements dropped, the rest kept in order. */
  ghost predicate IsSubsequence<T>(a: seq<T>, b: seq<T>)
    decreases |b|
  {
    if a == [] then true
    else if b == [] then false
    else (a[0] == b[0] && IsSubsequence(a[1..], b[1..])) || IsSubsequence(a, b[1..])
  }

  /** `tasks.filter(t => !!t.geometry)`. */
  function TasksWithGeometry(tasks: seq<TaskExport>): (r: seq<TaskExport>)
    ensures forall t :: t in r <==> t in tasks && HasGeometry(t)
    ensures forall t :: multiset(r)[t] == if HasGeometry(t) then multiset(tasks)[t] else 0
    ensures IsSubsequence(r, tasks)
    ensures (forall i :: 0 <= i < |tasks| ==> HasGeometry(tasks[i])) ==> r == tasks
  {
    if tasks == [] then []
    else
      var rest := TasksWithGeometry(tasks[1..]);
      assert forall t :: t in tasks <==> t == tasks[0] || t in tasks[1..];
      assert tasks == [tasks[0]] + tasks[1..];
      assert multiset(tasks) == multiset{tasks[0]} + multiset(tasks[1..]);
      if HasGeometry(tasks[0]) then
        assert ([tasks[0]] + rest)[1..] == rest;
        assert multiset([tasks[0]] + rest) == multiset{tasks[0]} + multiset(rest);
        [tasks[0]] + rest
      else
        rest
  }

  /** A draft made from an exported task: no id, no progress, the task's name and capacity. */
  predicate IsTemplateDraft(d: TaskDraft, t: TaskExport) {
    d.id == None && d.name == t.name && d.processPoints == 0 && d.maxProcessPoints == t.maxProcessPoints
  }

  /** Every task's geometry document can be read (the tasks carrying one, that is). */
  predicate AllRead(tasks: seq<TaskExport>, readFeature: string -> Option<FeatureDocument>) {
    forall i :: 0 <= i < |tasks| && HasGeometry(tasks[i]) ==> readFeature(tasks[i].geometry.value).Some?
  }

  /** The feature holds what was read from its document: the extent and the document's properties. */
  ghost predicate ReadFrom(f: Feature, doc: FeatureDocument)
    reads f
  {
    f.extent == doc.extent && f.id == doc.id && f.name == doc.name && f.maxProcessPoints == doc.maxProcessPoints
  }

  /** What the import service reports, in order. */
  datatype ImportEvent =
    | PropertiesImported(properties: ProjectProperties)
    | DraftsAdded(count: nat)
    | ProjectForwarded(project: ProjectExport)
    | Info(message: string)
    | Error(message: string)

  class ProjectImportService {
    const draftService: TaskDraftService
    /** The `projectPropertiesImported` emissions, draft-service hand-overs, forwards and notifications. */
    var events: seq<ImportEvent>

    constructor (draftService: TaskDraftService)
      ensures this.draftService == draftService && events == []
    {
      this.draftService := draftService;
      events := [];
    }

    /**
     * The `map` step of `importProjectAsNewProject`: one draft per task,
     * each with a new feature read from the task's geometry document. The
     * reader gives None for a document it cannot parse, where `readFeature`
     * throws: the map stops there and yields no drafts at all.
     */
    static method ToDrafts(tasks: seq<TaskExport>, readFeature: string -> Option<FeatureDocument>)
      returns (drafts: Option<seq<TaskDraft>>)
      requires forall i :: 0 <= i < |tasks| ==> HasGeometry(tasks[i])
      ensures drafts.Some? <==> AllRead(tasks, readFeature)
      ensures drafts.Some? ==> |drafts.value| == |tasks|
      ensures drafts.Some? ==> forall i :: 0 <= i < |tasks| ==> IsTemplateDraft(drafts.value[i], tasks[i])
      ensures drafts.Some? ==> forall i :: 0 <= i < |tasks| ==> fresh(drafts.value[i].geometry)
      ensures drafts.Some? ==> forall i :: 0 <= i < |tasks| ==>
                ReadFrom(drafts.value[i].geometry, readFeature(tasks[i].geometry.value).value)
      ensures drafts.Some? ==> forall i, j :: 0 <= i < j < |tasks| ==> drafts.value[i].geometry != drafts.value[j].geometry
    {
      var ds := [];
      var i := 0;
      while i < |tasks|
        invariant 0 <= i <= |tasks| && |ds| == i
        invariant forall k :: 0 <= k < i ==> readFeature(tasks[k].geometry.value).Some?
        invariant forall k :: 0 <= k < i ==> IsTemplateDraft(ds[k], tasks[k])
        invariant forall k :: 0 <= k < i ==> fresh(ds[k].geometry)
        invariant forall k :: 0 <= k < i ==> ReadFrom(ds[k].geometry, readFeature(tasks[k].geometry.value).value)
        invariant forall k, l :: 0 <= k < l < i ==> ds[k].geometry != ds[l].geometry
      {
        var doc := readFeature(tasks[i].geometry.value);
        if doc.None? {
          return None;
        }
        var feature := new Feature.Read(doc.value);
        ds := ds + [TaskDraft(None, tasks[i].name, feature, 0, tasks[i].maxProcessPoints)];
        i := i + 1;
      }
      drafts := Some(ds);
    }

    /**
     * `importProjectAsNewProject`: the template properties are emitted, then
     * the drafts of the tasks that carry a geometry, in their order, are
     * handed to the draft service in one call. When a geometry document
     * cannot be read, the import stops after the properties are emitted.
     */
    method ImportProjectAsNewProject(project: ProjectExport, readFeature: string -> Option<FeatureDocument>)
      requires project.tasks != []
      modifies this`events, draftService`tasks
      ensures var kept := TasksWithGeometry(project.tasks);
              !AllRead(kept, readFeature) ==>
                draftService.tasks == old(draftService.tasks) &&
                events == old(events) + [PropertiesImported(TemplateProperties(project))]
      ensures var kept := TasksWithGeometry(project.tasks);
              AllRead(kept, readFeature) ==>
                |draftService.tasks| == |old(draftService.tasks)| + |kept| &&
                draftService.tasks[..|old(draftService.tasks)|] == old(draftService.tasks) &&
                (forall i :: 0 <= i < |kept| ==>
                   var d := draftService.tasks[|old(draftService.tasks)| + i];
                   IsTemplateDraft(d, kept[i]) && fresh(d.geometry) && HasGeometry(kept[i]) &&
                   ReadFrom(d.geometry, readFeature(kept[i].geometry.value).value)) &&
                events == old(events) + [PropertiesImported(TemplateProperties(project)), DraftsAdded(|kept|)]
    {
      var projectProperties := ProjectProperties(project.name, MaxProcessPoints(project.tasks), project.description);
      events := events + [PropertiesImported(projectProperties)];
      var tasksWithGeometries := TasksWithGeometry(project.tasks);
      var taskDrafts := ToDrafts(tasksWithGeometries, readFeature);
      if taskDrafts.None? {
        return;
      }
      draftService.AddTasks(taskDrafts.value);
      events := events + [DraftsAdded(|taskDrafts.value|)];
    }

    /**
     * `importProject`: the export is forwarded to the project service; its
     * outcome (`None` for success, or the error text) becomes an info or an
     * error notification. The draft service is not touched.
     */
    method ImportProject(project: ProjectExport, failure: Option<string>)
      modifies this`events
      ensures failure.None? ==> events == old(events) + [ProjectForwarded(project), Info("Project imported")]
      ensures failure.Some? ==>
                events == old(events) + [ProjectForwarded(project), Error("Project import failed: " + failure.value)]
      ensures draftService.tasks == old(draftService.tasks)
    {
      events := events + [ProjectForwarded(project)];
      match failure {
        case None => events := events + [Info("Project imported")];
        case Some(e) => events := events + [Error("Project import failed: " + e)];
      }
    }
  }
}
