/**
 * The draft-task vocabulary shared by the project-creation controller and the
 * import service: map features (objects with properties and a polygon
 * geometry), task drafts that hold a feature as their geometry, the project
 * properties record, and the draft service that owns the list of drafts and
 * the selection.
 */
module Drafts {
  import opened Wrappers
  import opened OlMap

  /**
   * A map feature. Its polygon geometry is represented by the polygon's
   * extent; `id`, `name` and `maxProcessPoints` are the properties attached
   * with `set` (None while unset). Features are shared by reference between
   * drafts and the feature collections.
   */
  class Feature {
    var id: Option<string>
    var name: Option<string>
    var maxProcessPoints: Option<int>
    var extent: Extent

    constructor (extent: Extent)
      ensures this.extent == extent
      ensures id == None && name == None && maxProcessPoints == None
    {
      this.extent := extent;
      id := None;
      name := None;
      maxProcessPoints := None;
    }

    /** A feature read from a GeoJSON document: its geometry and the properties the document carries. */
    constructor Read(doc: FeatureDocument)
      ensures extent == doc.extent
      ensures id == doc.id && name == doc.name && maxProcessPoints == doc.maxProcessPoints
    {
      extent := doc.extent;
      id := doc.id;
      name := doc.name;
      maxProcessPoints := doc.maxProcessPoints;
    }
  }

  /**
   * What the GeoJSON reader makes of a feature document: the polygon's
   * extent and the `id`, `name` and `maxProcessPoints` entries of its
   * `properties` (None when absent).
   */
  datatype FeatureDocument = FeatureDocument(
    extent: Extent,
    id: Option<string>,
    name: Option<string>,
    maxProcessPoints: Option<int>)

  /** A task that is not yet persisted; `geometry` is a reference to a feature. */
  datatype TaskDraft = TaskDraft(
    id: Option<string>,
    name: string,
    geometry: Feature,
    processPoints: int,
    maxProcessPoints: int)

  datatype ProjectProperties = ProjectProperties(
    projectName: string,
    maxProcessPoints: int,
    projectDescription: string)

  /** The geometry objects of the drafts, in order. */
  function Geometries(tasks: seq<TaskDraft>): (fs: seq<Feature>)
    ensures |fs| == |tasks|
    ensures forall i :: 0 <= i < |tasks| ==> fs[i] == tasks[i].geometry
  {
    seq(|tasks|, i requires 0 <= i < |tasks| => tasks[i].geometry)
  }

  /** The current geometry extents of the features, in order. */
  function Extents(fs: seq<Feature>): (es: seq<Extent>)
    reads fs
    ensures |es| == |fs|
    ensures forall i :: 0 <= i < |fs| ==> es[i] == fs[i].extent
  {
    seq(|fs|, i requires 0 <= i < |fs| reads fs => fs[i].extent)
  }

  /** The drafts whose id differs from `id`: what removing a draft by id keeps. */
  function WithoutId(tasks: seq<TaskDraft>, id: Option<string>): seq<TaskDraft>
  {
    if tasks == [] then []
    else if tasks[0].id == id then WithoutId(tasks[1..], id)
    else [tasks[0]] + WithoutId(tasks[1..], id)
  }

  /** The `id` properties of the features, in order. */
  function FeatureIdList(fs: seq<Feature>): (ids: seq<Option<string>>)
    reads fs
    ensures |ids| == |fs|
    ensures forall i :: 0 <= i < |fs| ==> ids[i] == fs[i].id
  {
    seq(|fs|, i requires 0 <= i < |fs| reads fs => fs[i].id)
  }

  /** The `id` properties of the features, counted with multiplicity. */
  function FeatureIds(fs: seq<Feature>): multiset<Option<string>>
    reads fs
  {
    multiset(FeatureIdList(fs))
  }

  /** The ids of the drafts, in order. */
  function DraftIdList(tasks: seq<TaskDraft>): (ids: seq<Option<string>>)
    ensures |ids| == |tasks|
    ensures forall i :: 0 <= i < |tasks| ==> ids[i] == tasks[i].id
  {
    seq(|tasks|, i requires 0 <= i < |tasks| => tasks[i].id)
  }

  /** The ids of the drafts, counted with multiplicity. */
  function DraftIds(tasks: seq<TaskDraft>): multiset<Option<string>>
  {
    multiset(DraftIdList(tasks))
  }

  /** Every draft has a non-empty id and no two drafts share one. */
  ghost predicate Keyed(tasks: seq<TaskDraft>)
  {
    DraftIds(tasks)[None] == 0 && DraftIds(tasks)[Some("")] == 0 &&
    forall id :: DraftIds(tasks)[id] <= 1
  }

  lemma FeatureIdsAppend(a: seq<Feature>, b: seq<Feature>)
    ensures FeatureIds(a + b) == FeatureIds(a) + FeatureIds(b)
  {
    assert FeatureIdList(a + b) == FeatureIdList(a) + FeatureIdList(b);
  }

  lemma DraftIdsAppend(a: seq<TaskDraft>, b: seq<TaskDraft>)
    ensures DraftIds(a + b) == DraftIds(a) + DraftIds(b)
  {
    assert DraftIdList(a + b) == DraftIdList(a) + DraftIdList(b);
  }

  /** A feature id occurs in the multiset exactly when some feature carries it. */
  lemma FeatureIdsMember(fs: seq<Feature>, id: Option<string>)
    ensures FeatureIds(fs)[id] > 0 <==> exists j :: 0 <= j < |fs| && fs[j].id == id
  {
  }

  /** Dropping the feature at `k` drops one occurrence of its id. */
  lemma FeatureIdsRemoveAt(fs: seq<Feature>, k: nat)
    requires k < |fs|
    ensures FeatureIds(fs[..k] + fs[k + 1..]) == FeatureIds(fs) - multiset{fs[k].id}
  {
    var ids := FeatureIdList(fs);
    assert FeatureIdList(fs[..k] + fs[k + 1..]) == ids[..k] + ids[k + 1..];
    assert ids == ids[..k] + [ids[k]] + ids[k + 1..];
    assert multiset(ids) == multiset(ids[..k]) + multiset{ids[k]} + multiset(ids[k + 1..]);
  }

  /** Labelled geometries carry exactly the drafts' ids. */
  lemma GeometryIds(tasks: seq<TaskDraft>)
    requires forall i :: 0 <= i < |tasks| ==> tasks[i].geometry.id == tasks[i].id
    ensures FeatureIds(Geometries(tasks)) == DraftIds(tasks)
  {
    assert FeatureIdList(Geometries(tasks)) == DraftIdList(tasks);
  }

  /** Removing by id drops every occurrence of that id and nothing else. */
  lemma {:induction false} WithoutIdIds(tasks: seq<TaskDraft>, id: Option<string>)
    ensures DraftIds(WithoutId(tasks, id)) == DraftIds(tasks)[id := 0]
    ensures DraftIds(tasks)[id] == 0 ==> WithoutId(tasks, id) == tasks
    decreases |tasks|
  {
    if tasks != [] {
      var head, rest := tasks[0], tasks[1..];
      WithoutIdIds(rest, id);
      assert tasks == [head] + rest;
      DraftIdsAppend([head], rest);
      assert DraftIdList([head]) == [head.id];
      if head.id != id {
        DraftIdsAppend([head], WithoutId(rest, id));
      }
    }
  }

  /**
   * The draft service. Its source is not part of this model; it is the
   * list of drafts and the optional selected id, and it notifies its
   * subscribers synchronously after every change.
   */
  class TaskDraftService {
    var tasks: seq<TaskDraft>
    var selectedId: Option<string>

    constructor ()
      ensures tasks == [] && selectedId == None
    {
      tasks := [];
      selectedId := None;
    }

    method AddTasks(drafts: seq<TaskDraft>)
      modifies this`tasks
      ensures tasks == old(tasks) + drafts
    {
      tasks := tasks + drafts;
    }

    method RemoveTask(id: Option<string>)
      modifies this
      ensures tasks == WithoutId(old(tasks), id)
      ensures selectedId == if old(selectedId) == id then None else old(selectedId)
    {
      tasks := WithoutId(tasks, id);
      if selectedId == id {
        selectedId := None;
      }
    }

    method SelectTask(id: Option<string>)
      modifies this`selectedId
      ensures selectedId == id
    {
      selectedId := id;
    }

    method DeselectTask()
      modifies this`selectedId
      ensures selectedId == None
    {
      selectedId := None;
    }
  }
}
