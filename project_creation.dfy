/**
 * The project-creation controller: four map interactions (draw, modify,
 * remove, select) switched so that at most one editing mode is on and
 * select is on exactly when none is; a committed feature collection that
 * follows the draft service's notifications; a preview collection for
 * split previews; the task limit; and the view fit after drafts are added.
 */
module ProjectCreation {
  import opened Wrappers
  import opened OlMap
  import opened Drafts

  /** Pixels kept free on each side of the map when fitting the view. */
  const MapPaddingPx: real := 25.0

  const MapSizeError: string := "Unable to get map size"

  /** The view centre used before the user moves the map. */
  const InitialCenter: Point := Point(1111000.0, 7086000.0)

  /** The zoom range the view is created with. */
  const MinZoom: real := 0.0
  const MaxZoom: real := 19.0

  /** The three interactions that the toolbar switches. */
  datatype EditMode = Draw | Modify | Remove

  /** A call to the project service's `createNewProject`. */
  datatype CreateRequest = CreateRequest(
    name: string,
    maxProcessPoints: int,
    description: string,
    features: seq<Feature>,
    users: seq<string>,
    owner: string)

  /** The part of the component that `addTasks` may change besides the committed collection. */
  datatype Controls = Controls(
    drawActive: bool,
    modifyActive: bool,
    removeActive: bool,
    selectActive: bool,
    selectFeatures: seq<Feature>,
    previewSource: seq<Feature>,
    selectedId: Option<string>,
    fitRequests: seq<FitRequest>,
    errors: seq<string>)

  /** The drafts' geometry objects are pairwise distinct and none of them is in `fs`. */
  ghost predicate NewGeometries(drafts: seq<TaskDraft>, fs: seq<Feature>) {
    (forall i, j :: 0 <= i < j < |drafts| ==> drafts[i].geometry != drafts[j].geometry) &&
    forall i :: 0 <= i < |drafts| ==> drafts[i].geometry !in fs
  }

  /** No later draft in `tasks` shares the geometry object of `tasks[i]`. */
  ghost predicate LastOwner(tasks: seq<TaskDraft>, i: int)
    requires 0 <= i < |tasks|
  {
    OwnerBefore(tasks, i, |tasks|)
  }

  /** No draft after `tasks[i]` and before position `n` shares its geometry object. */
  ghost predicate OwnerBefore(tasks: seq<TaskDraft>, i: int, n: int)
    requires 0 <= i < |tasks| && n <= |tasks|
  {
    forall k :: i < k < n ==> tasks[k].geometry != tasks[i].geometry
  }

  /** Every draft before position `n` that no later draft before `n` shares its geometry with labels it. */
  ghost predicate LabelledUpTo(tasks: seq<TaskDraft>, n: int)
    requires 0 <= n <= |tasks|
    reads Geometries(tasks)
  {
    forall j :: 0 <= j < n && OwnerBefore(tasks, j, n) ==> Labelled(tasks[j].geometry, tasks[j])
  }

  /** The feature carries the draft's id, name and maximum process points. */
  ghost predicate Labelled(f: Feature, t: TaskDraft)
    reads f
  {
    f.id == t.id && f.name == Some(t.name) && f.maxProcessPoints == Some(t.maxProcessPoints)
  }

  /**
   * The index of the first feature whose `id` property equals `id`
   * (`getFeatures().find(f => f.get('id') === id)`).
   */
  function FirstWithId(fs: seq<Feature>, id: Option<string>): (k: Option<nat>)
    reads fs
    ensures k.Some? ==> k.value < |fs| && fs[k.value].id == id
    ensures k.Some? ==> forall j :: 0 <= j < k.value ==> fs[j].id != id
    ensures k.None? ==> forall j :: 0 <= j < |fs| ==> fs[j].id != id
  {
    if fs == [] then None
    else if fs[0].id == id then Some(0)
    else match FirstWithId(fs[1..], id)
      case None => None
      case Some(k) => Some(k + 1)
  }

  /**
   * The committed collection after `removeTask(id)`: unchanged when the id
   * is undefined or empty or no feature carries it, otherwise without the
   * first feature that carries it.
   */
  function RemovedById(fs: seq<Feature>, id: Option<string>): (r: seq<Feature>)
    reads fs
    ensures id.None? || id.value == "" || (forall j :: 0 <= j < |fs| ==> fs[j].id != id) ==> r == fs
    ensures id.Some? && id.value != "" && (exists j :: 0 <= j < |fs| && fs[j].id == id) ==>
              exists k :: 0 <= k < |fs| && fs[k].id == id && (forall j :: 0 <= j < k ==> fs[j].id != id) &&
                          r == fs[..k] + fs[k + 1..]
  {
    if id.None? || id.value == "" then fs
    else match FirstWithId(fs, id)
      case None => fs
      case Some(k) => fs[..k] + fs[k + 1..]
  }

  /**
   * When the committed features carry exactly the drafts' ids and every
   * draft has its own non-empty id, removing an id from both sides in the
   * way the draft service and `removeTask` do keeps them in step.
   */
  lemma RemovalKeepsMirror(fs: seq<Feature>, ts: seq<TaskDraft>, id: Option<string>)
    requires FeatureIds(fs) == DraftIds(ts) && Keyed(ts)
    ensures FeatureIds(RemovedById(fs, id)) == DraftIds(WithoutId(ts, id))
    ensures Keyed(WithoutId(ts, id))
  {
    WithoutIdIds(ts, id);
    KeyedWithoutId(ts, id);
    if id.None? || id.value == "" {
      assert DraftIds(ts)[id] == 0;
    } else {
      match FirstWithId(fs, id)
      case None =>
        FeatureIdsMember(fs, id);
      case Some(k) =>
        RemoveOnlyOccurrence(fs, ts, k);
    }
  }

  /**
   * When the committed features mirror keyed drafts, removing the feature of
   * one draft's id leaves exactly one occurrence of that id to be added back:
   * `taskChanged` restores the mirror by committing one feature labelled with it.
   */
  lemma ReplaceKeepsMirror(fs: seq<Feature>, ts: seq<TaskDraft>, id: Option<string>)
    requires FeatureIds(fs) == DraftIds(ts) && Keyed(ts) && DraftIds(ts)[id] == 1
    ensures multiset(FeatureIdList(RemovedById(fs, id)) + [id]) == DraftIds(ts)
  {
    var m := DraftIds(ts);
    FeatureIdsMember(fs, id);
    assert id.Some? && id.value != "" by {
      assert m[None] == 0 && m[Some("")] == 0;
    }
    var k := FirstWithId(fs, id).value;
    RemoveOnlyOccurrence(fs, ts, k);
    assert m[id := 0] + multiset{id} == m;
  }

  /** Dropping the one feature that carries an id drops that id from the drafts' side. */
  lemma RemoveOnlyOccurrence(fs: seq<Feature>, ts: seq<TaskDraft>, k: nat)
    requires FeatureIds(fs) == DraftIds(ts) && k < |fs| && DraftIds(ts)[fs[k].id] <= 1
    ensures FeatureIds(fs[..k] + fs[k + 1..]) == DraftIds(ts)[fs[k].id := 0]
  {
    var m, id := DraftIds(ts), fs[k].id;
    FeatureIdsRemoveAt(fs, k);
    FeatureIdsMember(fs, id);
    assert m[id] == 1;
    assert m[id := 0] == m - multiset{id};
  }

  /** Removing drafts by id keeps every remaining id non-empty and unique. */
  lemma KeyedWithoutId(ts: seq<TaskDraft>, id: Option<string>)
    requires Keyed(ts)
    ensures Keyed(WithoutId(ts, id))
  {
    WithoutIdIds(ts, id);
    var m, r := DraftIds(ts), DraftIds(WithoutId(ts, id));
    forall x
      ensures r[x] <= 1
    {
      assert r[x] <= m[x];
    }
  }

  /** The view-fit extent: `start` extended by the extent of every feature, in order. */
  method FitExtent(start: Extent, features: seq<Feature>) returns (r: Extent)
    ensures r == ExtendAll(start, Extents(features))
  {
    ghost var exts := Extents(features);
    r := start;
    var i := 0;
    while i < |features|
      invariant 0 <= i <= |features|
      invariant ExtendAll(r, exts[i..]) == ExtendAll(start, exts)
    {
      assert exts[i..][0] == features[i].extent && exts[i..][1..] == exts[i + 1..];
      r := Extend(r, features[i].extent);
      i := i + 1;
    }
    assert exts[i..] == [];
  }

  class ProjectCreationComponent {
    const store: TaskDraftService
    const maxTasksPerProject: int
    var projectProperties: ProjectProperties

    var drawActive: bool
    var modifyActive: bool
    var removeActive: bool
    var selectActive: bool
    /** The feature collection of the select interaction. */
    var selectFeatures: seq<Feature>

    /** The committed collection (`vectorSource`). */
    var vectorSource: seq<Feature>
    /** The preview collection (`previewVectorSource`). */
    var previewSource: seq<Feature>

    /** `map.getSize()`: undefined until the map element has a size. */
    var mapSize: Option<Size>
    var center: Point
    var resolution: real
    var zoom: Option<real>
    /** Every `View.fit` requested, oldest first. */
    var fitRequests: seq<FitRequest>
    /** Error notifications, oldest first. */
    var errors: seq<string>
    /** How often the toolbar was told to drop its selection. */
    var toolbarResets: nat
    /** Calls made to the project service's `createNewProject`. */
    var createRequests: seq<CreateRequest>

    /** At most one editing mode is on, and select is on exactly when none is. */
    ghost predicate Valid()
      reads this
    {
      !(drawActive && modifyActive) && !(drawActive && removeActive) && !(modifyActive && removeActive) &&
      (selectActive <==> !drawActive && !modifyActive && !removeActive)
    }

    /** The committed collection carries exactly the drafts' ids, counted with multiplicity. */
    ghost predicate Mirrored()
      reads this, store, vectorSource
    {
      FeatureIds(vectorSource) == DraftIds(store.tasks)
    }

    /** The state after `ngOnInit`, `ngAfterViewInit` and `addMapInteractions`. */
    constructor (store: TaskDraftService, maxTasksPerProject: int, mapSize: Option<Size>, resolution: real)
      ensures Valid()
      ensures this.store == store && this.maxTasksPerProject == maxTasksPerProject
      ensures !drawActive && !modifyActive && !removeActive && selectActive
      ensures vectorSource == [] && previewSource == [] && selectFeatures == []
      ensures projectProperties == ProjectProperties("", 100, "")
      ensures this.mapSize == mapSize && this.resolution == resolution
      ensures center == InitialCenter && zoom == Some(14.0)
      ensures fitRequests == [] && errors == [] && toolbarResets == 0 && createRequests == []
    {
      this.store := store;
      this.maxTasksPerProject := maxTasksPerProject;
      projectProperties := ProjectProperties("", 100, "");
      drawActive, modifyActive, removeActive, selectActive := false, false, false, true;
      selectFeatures := [];
      vectorSource, previewSource := [], [];
      this.mapSize := mapSize;
      center := InitialCenter;
      this.resolution := resolution;
      zoom := Some(14.0);
      fitRequests, errors, toolbarResets, createRequests := [], [], 0, [];
    }

    /** `canAddTasks`: fewer drafts than the per-project maximum. */
    predicate CanAddTasks()
      reads this, store
    {
      |store.tasks| < maxTasksPerProject
    }

    function ControlState(): Controls
      reads this, store
    {
      Controls(drawActive, modifyActive, removeActive, selectActive, selectFeatures, previewSource,
               store.selectedId, fitRequests, errors)
    }

    /**
     * What `addTasks` does once features with extents `exts` are committed,
     * starting from the controls `before`. Without a map size only the error
     * is reported. Otherwise one fit is requested: the visible extent of the
     * map size less the padding on each side, extended by every extent in
     * `exts`, which it therefore covers. Draw is switched off, select on and
     * the selection dropped once the task limit is reached; below it nothing
     * else changes. The interaction invariant holds either way.
     */
    ghost predicate FittedAndLimited(exts: seq<Extent>, before: Controls)
      reads this, store
    {
      Valid() &&
      if mapSize.None? then ControlState() == before.(errors := before.errors + [MapSizeError])
      else
        var visible := VisibleExtent(center, resolution, Padded(mapSize.value, MapPaddingPx));
        var fit := ExtendAll(visible, exts);
        errors == before.errors &&
        fitRequests == before.fitRequests + [FitRequest(fit, mapSize, UniformPadding(MapPaddingPx))] &&
        ContainsExtent(fit, visible) && (forall i :: 0 <= i < |exts| ==> ContainsExtent(fit, exts[i])) &&
        (CanAddTasks() ==> ControlState() == before.(fitRequests := fitRequests)) &&
        (!CanAddTasks() ==>
           !drawActive && !modifyActive && !removeActive && selectActive &&
           selectFeatures == [] && previewSource == [] && store.selectedId == None)
    }

    /** The `taskSelected` handler: the preview collection is emptied (and the layer restyled). */
    method OnTaskSelected()
      modifies this`previewSource
      ensures previewSource == []
    {
      previewSource := [];
    }

    /**
     * `setInteraction(interaction, active)`: switch the three editing modes
     * off, set the given one to `active`, clear the select interaction's
     * features, turn select on exactly when no editing mode is on, and
     * deselect the draft task.
     */
    method SetInteraction(mode: EditMode, active: bool)
      modifies this`drawActive, this`modifyActive, this`removeActive, this`selectActive
      modifies this`selectFeatures, this`previewSource, store`selectedId
      ensures Valid()
      ensures drawActive == (active && mode == Draw)
      ensures modifyActive == (active && mode == Modify)
      ensures removeActive == (active && mode == Remove)
      ensures selectActive == !active
      ensures selectFeatures == [] && store.selectedId == None && previewSource == []
    {
      drawActive := false;
      modifyActive := false;
      removeActive := false;
      match mode {
        case Draw => drawActive := active;
        case Modify => modifyActive := active;
        case Remove => removeActive := active;
      }
      selectFeatures := [];
      selectActive := !drawActive && !modifyActive && !removeActive;
      store.DeselectTask();
      OnTaskSelected();
    }

    method OnToggleDraw()
      modifies this`drawActive, this`modifyActive, this`removeActive, this`selectActive
      modifies this`selectFeatures, this`previewSource, store`selectedId
      ensures Valid()
      ensures drawActive == !old(drawActive) && !modifyActive && !removeActive
      ensures selectActive == old(drawActive)
      ensures selectFeatures == [] && store.selectedId == None && previewSource == []
    {
      SetInteraction(Draw, !drawActive);
    }

    method OnToggleEdit()
      modifies this`drawActive, this`modifyActive, this`removeActive, this`selectActive
      modifies this`selectFeatures, this`previewSource, store`selectedId
      ensures Valid()
      ensures modifyActive == !old(modifyActive) && !drawActive && !removeActive
      ensures selectActive == old(modifyActive)
      ensures selectFeatures == [] && store.selectedId == None && previewSource == []
    {
      SetInteraction(Modify, !modifyActive);
    }

    method OnToggleDelete()
      modifies this`drawActive, this`modifyActive, this`removeActive, this`selectActive
      modifies this`selectFeatures, this`previewSource, store`selectedId
      ensures Valid()
      ensures removeActive == !old(removeActive) && !drawActive && !modifyActive
      ensures selectActive == old(removeActive)
      ensures selectFeatures == [] && store.selectedId == None && previewSource == []
    {
      SetInteraction(Remove, !removeActive);
    }

    /**
     * `onTabSelected`: all editing modes off, select on, preview cleared and
     * the toolbar told to drop its selection. The selection and the select
     * interaction's features are left as they are.
     */
    method OnTabSelected()
      modifies this`drawActive, this`modifyActive, this`removeActive, this`selectActive
      modifies this`previewSource, this`toolbarResets
      ensures Valid()
      ensures !drawActive && !modifyActive && !removeActive && selectActive
      ensures previewSource == []
      ensures toolbarResets == old(toolbarResets) + 1
    {
      drawActive := false;
      modifyActive := false;
      removeActive := false;
      selectActive := true;
      previewSource := [];
      toolbarResets := toolbarResets + 1;
    }

    /**
     * `toFeature(task)`: the draft's own geometry object, labelled with the
     * draft's id, name and maximum process points. No copy is made.
     */
    method ToFeature(task: TaskDraft) returns (f: Feature)
      modifies task.geometry
      ensures f == task.geometry
      ensures Labelled(f, task)
      ensures f.extent == old(f.extent)
    {
      f := task.geometry;
      f.id := task.id;
      f.name := Some(task.name);
      f.maxProcessPoints := Some(task.maxProcessPoints);
    }

    /**
     * `tasks.map(t => this.toFeature(t))`. When several drafts share one
     * geometry object, the last of them labels it.
     */
    method ToFeatures(tasks: seq<TaskDraft>) returns (fs: seq<Feature>)
      modifies Geometries(tasks)
      ensures fs == Geometries(tasks)
      ensures forall i :: 0 <= i < |tasks| && LastOwner(tasks, i) ==> Labelled(tasks[i].geometry, tasks[i])
      ensures forall i :: 0 <= i < |tasks| ==> tasks[i].geometry.extent == old(tasks[i].geometry.extent)
    {
      fs := [];
      var i := 0;
      while i < |tasks|
        invariant 0 <= i <= |tasks|
        invariant |fs| == i && forall j :: 0 <= j < i ==> fs[j] == tasks[j].geometry
        invariant LabelledUpTo(tasks, i)
        invariant forall j :: 0 <= j < |tasks| ==> tasks[j].geometry.extent == old(tasks[j].geometry.extent)
      {
        assert Geometries(tasks)[i] == tasks[i].geometry;
        label before:
        var f := ToFeature(tasks[i]);
        assert LabelledUpTo(tasks, i + 1) by {
          forall j | 0 <= j < i + 1 && OwnerBefore(tasks, j, i + 1)
            ensures Labelled(tasks[j].geometry, tasks[j])
          {
            if j < i {
              assert OwnerBefore(tasks, j, i) && tasks[j].geometry != f;
              assert old@before(LabelledUpTo(tasks, i));
            }
          }
        }
        fs := fs + [f];
        i := i + 1;
      }
      assert forall j :: 0 <= j < |tasks| && LastOwner(tasks, j) ==> OwnerBefore(tasks, j, |tasks|);
    }

    /**
     * The view fit of `addTasks` once the map size is known: the visible
     * extent of the map size less the padding on each side, extended by the
     * extent of every new feature, fitted into the map size with the padding.
     */
    method FitToFeatures(newFeatures: seq<Feature>)
      requires mapSize.Some?
      modifies this`fitRequests
      ensures fitRequests == old(fitRequests) + [FitRequest(
                ExtendAll(VisibleExtent(center, resolution, Padded(mapSize.value, MapPaddingPx)),
                          Extents(newFeatures)),
                mapSize, UniformPadding(MapPaddingPx))]
      ensures ContainsExtent(fitRequests[|fitRequests| - 1].extent,
                             VisibleExtent(center, resolution, Padded(mapSize.value, MapPaddingPx)))
      ensures forall i :: 0 <= i < |newFeatures| ==>
                ContainsExtent(fitRequests[|fitRequests| - 1].extent, newFeatures[i].extent)
    {
      var size := mapSize.value;
      var paddedSize := Size(size.width - 2.0 * MapPaddingPx, size.height - 2.0 * MapPaddingPx);
      var start := VisibleExtent(center, resolution, paddedSize);
      var overallExtent := FitExtent(start, newFeatures);
      ExtendAllCovers(start, Extents(newFeatures));
      fitRequests := fitRequests + [FitRequest(overallExtent, mapSize, UniformPadding(MapPaddingPx))];
    }

    /**
     * The first step of `addTasks`: every draft is turned into its feature
     * and the features are appended to the committed collection. Distinct,
     * not yet committed geometries add exactly the drafts' ids.
     */
    method CommitFeatures(tasks: seq<TaskDraft>) returns (newFeatures: seq<Feature>)
      modifies this`vectorSource, Geometries(tasks)
      ensures newFeatures == Geometries(tasks)
      ensures vectorSource == old(vectorSource) + newFeatures
      ensures forall i :: 0 <= i < |tasks| && LastOwner(tasks, i) ==> Labelled(tasks[i].geometry, tasks[i])
      ensures forall i :: 0 <= i < |tasks| ==> tasks[i].geometry.extent == old(tasks[i].geometry.extent)
      ensures NewGeometries(tasks, old(vectorSource)) ==>
                FeatureIds(vectorSource) == old(FeatureIds(vectorSource)) + DraftIds(tasks)
    {
      ghost var fs := vectorSource;
      newFeatures := ToFeatures(tasks);
      vectorSource := vectorSource + newFeatures;
      if NewGeometries(tasks, fs) {
        forall i | 0 <= i < |tasks|
          ensures tasks[i].geometry.id == tasks[i].id
        {
          assert LastOwner(tasks, i);
        }
        GeometryIds(tasks);
        FeatureIdsAppend(fs, newFeatures);
        assert FeatureIds(fs) == old(FeatureIds(fs));
      }
    }

    /**
     * The rest of `addTasks` once the features are committed: without a map
     * size an error is reported and nothing else happens; otherwise the view
     * is fitted to the visible extent of the padded map size extended by
     * every new feature's extent, and draw is switched off once the task
     * limit is reached, as `FittedAndLimited` states.
     */
    method FitAndLimit(newFeatures: seq<Feature>)
      requires Valid()
      modifies this`fitRequests, this`errors
      modifies this`drawActive, this`modifyActive, this`removeActive, this`selectActive
      modifies this`selectFeatures, this`previewSource, store`selectedId
      ensures FittedAndLimited(Extents(newFeatures), old(ControlState()))
    {
      if mapSize.None? {
        errors := errors + [MapSizeError];
        return;
      }
      FitToFeatures(newFeatures);
      if !CanAddTasks() {
        ghost var exts := Extents(newFeatures);
        SetInteraction(Draw, false);
        assert Extents(newFeatures) == exts;
        assert !CanAddTasks();
      }
    }

    /**
     * The `tasksAdded` handler (`addTasks`): one feature per draft is appended
     * to the committed collection, then the view is fitted and the task
     * limit applied as `FittedAndLimited` states.
     */
    method AddTasks(tasks: seq<TaskDraft>)
      requires Valid()
      modifies this`vectorSource, this`fitRequests, this`errors
      modifies this`drawActive, this`modifyActive, this`removeActive, this`selectActive
      modifies this`selectFeatures, this`previewSource, store`selectedId, Geometries(tasks)
      ensures vectorSource == old(vectorSource) + Geometries(tasks)
      ensures forall i :: 0 <= i < |tasks| && LastOwner(tasks, i) ==> Labelled(tasks[i].geometry, tasks[i])
      ensures forall i :: 0 <= i < |tasks| ==> tasks[i].geometry.extent == old(tasks[i].geometry.extent)
      ensures FittedAndLimited(Extents(Geometries(tasks)), old(ControlState()))
      ensures NewGeometries(tasks, old(vectorSource)) ==>
                FeatureIds(vectorSource) == old(FeatureIds(vectorSource)) + DraftIds(tasks)
    {
      var newFeatures := CommitFeatures(tasks);
      FitAndLimit(newFeatures);
      assert forall i :: 0 <= i < |tasks| ==> newFeatures[i] == tasks[i].geometry;
    }

    /**
     * The `taskRemoved` handler (`removeTask`): drop the first committed
     * feature carrying `id`; nothing happens for an undefined or empty id
     * or when no feature carries it.
     */
    method RemoveTask(id: Option<string>)
      modifies this`vectorSource
      ensures vectorSource == old(RemovedById(vectorSource, id))
    {
      var featureToRemove := FirstWithId(vectorSource, id);
      if id.None? || id.value == "" || featureToRemove.None? {
        return;
      }
      var k := featureToRemove.value;
      vectorSource := vectorSource[..k] + vectorSource[k + 1..];
    }

    /**
     * The `taskChanged` handler: remove the draft's feature, then add the
     * changed draft. Unless the new geometry stays committed under another
     * draft, the committed ids become those the removal left plus the draft's
     * id; the draft service has already replaced the draft under the same id,
     * so by `ReplaceKeepsMirror` a mirrored collection stays mirrored.
     */
    method OnTaskChanged(task: TaskDraft)
      requires Valid()
      modifies this`vectorSource, this`fitRequests, this`errors
      modifies this`drawActive, this`modifyActive, this`removeActive, this`selectActive
      modifies this`selectFeatures, this`previewSource, store`selectedId, task.geometry
      ensures vectorSource == old(RemovedById(vectorSource, task.id)) + [task.geometry]
      ensures Labelled(task.geometry, task)
      ensures FittedAndLimited([task.geometry.extent], old(ControlState()))
      ensures task.geometry !in old(RemovedById(vectorSource, task.id)) ==>
                FeatureIdList(vectorSource) == old(FeatureIdList(RemovedById(vectorSource, task.id))) + [task.id]
    {
      ghost var before := ControlState();
      ghost var kept := FeatureIdList(RemovedById(vectorSource, task.id));
      RemoveTask(task.id);
      assert ControlState() == before;
      ghost var r := vectorSource;
      assert FeatureIdList(r) == kept;
      AddTasks([task]);
      assert LastOwner([task], 0);
      assert Labelled([task][0].geometry, [task][0]);
      assert Extents(Geometries([task])) == [task.geometry.extent];
      if task.geometry !in r {
        assert forall i :: 0 <= i < |r| ==> r[i].id == kept[i];
        assert FeatureIdList(vectorSource) == kept + [task.id];
      }
    }

    /** The `projectPropertiesImported` handler. */
    method OnProjectPropertiesImported(properties: ProjectProperties)
      modifies this`projectProperties
      ensures projectProperties == properties
    {
      projectProperties := properties;
    }

    /**
     * Drafts handed to the draft service's `addTasks`: the service appends
     * them, and its `tasksAdded` notification runs `addTasks`. Drafts whose
     * geometries are distinct and not yet committed keep the committed
     * collection mirroring the drafts.
     */
    method AddDrafts(drafts: seq<TaskDraft>)
      requires Valid()
      modifies this`vectorSource, this`fitRequests, this`errors
      modifies this`drawActive, this`modifyActive, this`removeActive, this`selectActive
      modifies this`selectFeatures, this`previewSource, store, Geometries(drafts)
      ensures store.tasks == old(store.tasks) + drafts
      ensures vectorSource == old(vectorSource) + Geometries(drafts)
      ensures forall i :: 0 <= i < |drafts| && LastOwner(drafts, i) ==> Labelled(drafts[i].geometry, drafts[i])
      ensures FittedAndLimited(Extents(Geometries(drafts)), old(ControlState()))
      ensures old(Mirrored()) && NewGeometries(drafts, old(vectorSource)) ==> Mirrored()
    {
      ghost var ts := store.tasks;
      store.AddTasks(drafts);
      AddTasks(drafts);
      DraftIdsAppend(ts, drafts);
    }

    /**
     * The draw interaction's `drawend` callback: the drawn shape, turned into
     * a draft by the draft service, is handed to the service's `addTasks`.
     */
    method OnDrawEnd(draft: TaskDraft)
      requires Valid()
      modifies this`vectorSource, this`fitRequests, this`errors
      modifies this`drawActive, this`modifyActive, this`removeActive, this`selectActive
      modifies this`selectFeatures, this`previewSource, store, draft.geometry
      ensures store.tasks == old(store.tasks) + [draft]
      ensures vectorSource == old(vectorSource) + [draft.geometry]
      ensures Labelled(draft.geometry, draft)
      ensures FittedAndLimited([draft.geometry.extent], old(ControlState()))
      ensures old(Mirrored()) && draft.geometry !in old(vectorSource) ==> Mirrored()
    {
      assert Geometries([draft]) == [draft.geometry];
      AddDrafts([draft]);
      assert LastOwner([draft], 0);
      assert Labelled([draft][0].geometry, [draft][0]);
      assert Extents([draft.geometry]) == [draft.geometry.extent];
    }

    /**
     * The remove interaction's `select` callback: the id of the first selected
     * feature is removed from the draft service, whose `taskRemoved`
     * notification runs `removeTask`.
     */
    method OnRemoveSelected(selected: seq<Feature>)
      modifies this`vectorSource, store
      ensures selected == [] ==> vectorSource == old(vectorSource) && store.tasks == old(store.tasks)
      ensures selected != [] ==>
                store.tasks == WithoutId(old(store.tasks), selected[0].id) &&
                vectorSource == old(RemovedById(vectorSource, selected[0].id))
      ensures selected != [] && old(store.selectedId) == selected[0].id ==> store.selectedId == None
      ensures old(Mirrored()) && old(Keyed(store.tasks)) ==> Mirrored() && Keyed(store.tasks)
    {
      if selected != [] {
        var id := selected[0].id;
        ghost var fs, ts := vectorSource, store.tasks;
        ghost var wasSynced := Mirrored() && Keyed(store.tasks);
        store.RemoveTask(id);
        RemoveTask(id);
        if wasSynced {
          RemovalKeepsMirror(fs, ts, id);
        }
      }
    }

    /**
     * The select interaction's `select` callback. The interaction first takes
     * the clicked features as its own; then the first one's draft is selected,
     * or the draft is deselected when nothing was hit. Either way the
     * `taskSelected` notification clears the preview.
     */
    method OnSelectSelected(selected: seq<Feature>)
      modifies this`selectFeatures, this`previewSource, store`selectedId
      ensures selectFeatures == selected
      ensures store.selectedId == if selected != [] then selected[0].id else None
      ensures previewSource == []
    {
      selectFeatures := selected;
      if selected != [] {
        store.SelectTask(selected[0].id);
      } else {
        store.DeselectTask();
      }
      OnTaskSelected();
    }

    /** `onDividePreviewClicked`: the preview holds exactly the given drafts' features. */
    method OnDividePreviewClicked(taskDrafts: seq<TaskDraft>)
      modifies this`previewSource, Geometries(taskDrafts)
      ensures previewSource == Geometries(taskDrafts)
      ensures forall i :: 0 <= i < |taskDrafts| && LastOwner(taskDrafts, i) ==>
                Labelled(taskDrafts[i].geometry, taskDrafts[i])
    {
      previewSource := [];
      var features := ToFeatures(taskDrafts);
      assert previewSource + features == features;
      previewSource := previewSource + features;
    }

    /**
     * `createProject`: without a current user id (`owner` undefined or empty)
     * nothing is sent; otherwise one request is made with the owner as the
     * only member.
     */
    method CreateProject(name: string, maxProcessPoints: int, description: string,
                         features: seq<Feature>, owner: Option<string>)
      modifies this`createRequests
      ensures owner.None? || owner.value == "" ==> createRequests == old(createRequests)
      ensures owner.Some? && owner.value != "" ==>
                createRequests == old(createRequests) +
                  [CreateRequest(name, maxProcessPoints, description, features, [owner.value], owner.value)]
    {
      if owner.None? || owner.value == "" {
        return;
      }
      createRequests := createRequests +
        [CreateRequest(name, maxProcessPoints, description, features, [owner.value], owner.value)];
    }

    /**
     * `onZoomIn`: one zoom level in, held to the view's zoom range,
     * unless the zoom is undefined or 0.
     */
    method OnZoomIn()
      modifies this`zoom
      ensures ZoomIsFalsy(old(zoom)) ==> zoom == old(zoom)
      ensures !ZoomIsFalsy(old(zoom)) ==> zoom == Some(ConstrainZoom(old(zoom).value + 1.0, MinZoom, MaxZoom))
      ensures !ZoomIsFalsy(old(zoom)) ==> MinZoom <= zoom.value <= MaxZoom
    {
      if ZoomIsFalsy(zoom) {
        return;
      }
      zoom := Some(ConstrainZoom(zoom.value + 1.0, MinZoom, MaxZoom));
    }

    /**
     * `onZoomOut`: one zoom level out, held to the view's zoom range,
     * unless the zoom is undefined or 0.
     */
    method OnZoomOut()
      modifies this`zoom
      ensures ZoomIsFalsy(old(zoom)) ==> zoom == old(zoom)
      ensures !ZoomIsFalsy(old(zoom)) ==> zoom == Some(ConstrainZoom(old(zoom).value - 1.0, MinZoom, MaxZoom))
      ensures !ZoomIsFalsy(old(zoom)) ==> MinZoom <= zoom.value <= MaxZoom
    {
      if ZoomIsFalsy(zoom) {
        return;
      }
      zoom := Some(ConstrainZoom(zoom.value - 1.0, MinZoom, MaxZoom));
    }
  }
}
