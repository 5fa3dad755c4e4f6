# Simple Task Manager: a Dafny model of its core

This project models the core of Simple Task Manager, a web application for
splitting a mapping area into tasks that several mappers then work on. Both
halves of the system are modelled.

The Angular client:

- **Project creation.** Four map interactions are switched: draw, modify,
  remove and select. At most one editing mode is on at a time, and select is
  on exactly when none is. A committed feature collection follows the draft
  service's notifications (`tasksAdded`, `taskRemoved`, `taskChanged`,
  `taskSelected`). A preview collection holds split previews. Adding drafts
  fits the view over the new features, and draw is switched off once the
  per-project task limit is reached.
- **Project import.** An export either becomes the template of a new project
  or is forwarded to the project service.
- **Task list.** Updates are matched by object identity, and a click selects
  the task with that id.
- **Map component.** Zoom animations, view fits and the re-centring on a
  geometry that is out of view.

The Go server:

- **Task service.** Incoming tasks are validated as a batch. A task can be
  assigned only while it is unassigned. Process points must lie in
  `[0, maxProcessPoints]`. Permission checks come before reads and writes.
- **API request plumbing.** The response constructors, and the path a
  request takes: token check, context and transaction, handler,
  commit or rollback, response.
- **Configuration.** The defaults, the environment overrides, and the
  masked property lines printed at start-up.

Several things come from outside the modelled code. The map library's
geometry is reduced to axis-aligned extents (module `OlMap`). The draft
service is modelled only by the behaviour the components rely on (module
`Drafts`). Collaborators are passed in as values: the permission service's
verdicts, GeoJSON parsing, database-generated ids, token verification,
context creation, the handler's outcome, the commit's outcome and
environment lookups. Visible effects are recorded as sequences the methods
extend:

- fit requests;
- notifications;
- import events;
- the effects of a request exchange;
- select requests.

Classes hold the state the source mutates in place:

- the project-creation component, with its feature collections as `seq`s of
  shared `Feature` objects;
- the task service's table;
- the request exchange's transaction;
- the map component;
- the configuration;
- the task list's array of task objects.

Project-creation invariants:

- `ProjectCreationComponent.Valid` is the interaction invariant.
- `Mirrored` says that the committed collection carries exactly the drafts'
  ids, counted with multiplicity. It is kept on every path that changes the
  drafts or the committed collection:
  - a batch handed to the draft service (`AddDrafts`, the `tasksAdded` path)
    and a drawn draft (`OnDrawEnd`), when the new geometries are distinct and
    not yet committed;
  - a draft removed through the remove interaction (`OnRemoveSelected`),
    while ids are unique and non-empty;
  - a changed draft (`OnTaskChanged`): its contract gives the id list after
    the change, and `ReplaceKeepsMirror` shows that this list carries exactly
    the drafts' ids when the id was unique and the new geometry not
    committed under another draft.
- `FittedAndLimited` is what `addTasks` does after committing features: the
  `MapSizeError` without a map size, otherwise one fit request covering the
  visible extent and every new feature, and, once `CanAddTasks` is false,
  draw switched off with select on. `AddTasks`, `AddDrafts`, `OnDrawEnd` and
  `OnTaskChanged` all state it.

Task-list behaviour:

- `tasksUpdated` replaces `this.tasks[indexOf(u)]` by `u` itself. The
  replacement therefore never changes the list (`ApplyUpdatesKeeps`): the
  displayed objects change only through shared references.

Server task-service behaviour:

- The server deletes the `id` property from a parsed copy of the feature
  document. The stored geometry text is the original, which the model keeps.

## Model

| member | source | states |
|---|---|---|
| OlMap.Extend | client/src/app/project-creation/project-creation/project-creation.component.ts:222 | `extend` gives an extent containing both arguments that lies inside every extent containing both |
| OlMap.ExtendAllCovers | client/src/app/project-creation/project-creation/project-creation.component.ts:222 | extending the start extent by every new feature's extent (`ExtendAll`) covers the start and each feature |
| OlMap.ExtendAllLeast | client/src/app/project-creation/project-creation/project-creation.component.ts:222 | and the result is the least such extent: any extent covering them all covers it |
| OlMap.Center | client/src/app/common/components/map/map.component.ts:108 | the computed centre is equidistant from opposite edges and lies inside any well-formed extent |
| OlMap.VisibleExtent | client/src/app/project-creation/project-creation/project-creation.component.ts:218 | the extent a view shows is centred on the view centre; for non-negative resolution and size it is well formed and contains the centre |
| Drafts.Geometries | client/src/app/project-creation/project-creation/project-creation.component.ts:204 | one feature per draft, in order, each the draft's own geometry object |
| ProjectCreation.FirstWithId | client/src/app/project-creation/project-creation/project-creation.component.ts:235 | `find` yields the first feature whose `id` equals the given id, or nothing when no feature carries it |
| ProjectCreation.RemovedById | client/src/app/project-creation/project-creation/project-creation.component.ts:234-241 | an undefined or empty id, or one no feature carries, leaves the collection unchanged; otherwise exactly the first feature carrying it is removed |
| ProjectCreation.RemovalKeepsMirror | client/src/app/project-creation/project-creation/project-creation.component.ts:234-241 | if the feature ids equal the draft ids as multisets and draft ids are unique and non-empty, removing an id on both sides keeps both facts |
| ProjectCreation.ReplaceKeepsMirror | client/src/app/project-creation/project-creation/project-creation.component.ts:82-85 | with feature ids equal to the drafts' ids, unique and non-empty, the ids left after removing one draft's feature, plus that id once, are again exactly the drafts' ids |
| ProjectCreation.RemoveOnlyOccurrence | client/src/app/project-creation/project-creation/project-creation.component.ts:240 | removing the only feature that carries an id drops exactly that id from the multiset |
| Drafts.GeometryIds | client/src/app/project-creation/project-creation/project-creation.component.ts:204 | geometries labelled with their drafts' ids carry exactly the drafts' ids, counted with multiplicity |
| ProjectCreation.KeyedWithoutId | client/src/app/project-creation/project-creation/project-creation.component.ts:75-77 | removing drafts by id keeps the remaining ids non-empty and unique |
| ProjectCreation.FitExtent | client/src/app/project-creation/project-creation/project-creation.component.ts:222 | the `forEach` loop computes the start extent extended by every feature's extent in order (covering and least, by the lemmas above) |
| ProjectCreation.ProjectCreationComponent.constructor | client/src/app/project-creation/project-creation/project-creation.component.ts:94-129 | after initialisation: editing modes off, select on, empty collections, the initial centre and zoom 14, interaction invariant holds |
| ProjectCreation.ProjectCreationComponent.OnTaskSelected | client/src/app/project-creation/project-creation/project-creation.component.ts:78-81 | a selection notification empties the preview collection |
| ProjectCreation.ProjectCreationComponent.SetInteraction | client/src/app/project-creation/project-creation/project-creation.component.ts:378-394 | only the given mode may end active, select is on exactly when it did not, the select features are cleared and the draft deselected; the invariant holds |
| ProjectCreation.ProjectCreationComponent.OnToggleDraw | client/src/app/project-creation/project-creation/project-creation.component.ts:366-368 | draw flips, modify and remove end off, select is on exactly when draw was on before |
| ProjectCreation.ProjectCreationComponent.OnToggleEdit | client/src/app/project-creation/project-creation/project-creation.component.ts:370-372 | modify flips, draw and remove end off, select is on exactly when modify was on before |
| ProjectCreation.ProjectCreationComponent.OnToggleDelete | client/src/app/project-creation/project-creation/project-creation.component.ts:374-376 | remove flips, draw and modify end off, select is on exactly when remove was on before |
| ProjectCreation.ProjectCreationComponent.OnTabSelected | client/src/app/project-creation/project-creation/project-creation.component.ts:336-346 | all editing modes off, select on, preview empty, one more toolbar reset |
| ProjectCreation.ProjectCreationComponent.ToFeature | client/src/app/project-creation/project-creation/project-creation.component.ts:401-407 | returns the draft's own geometry object (no copy), labelled with the draft's id, name and maximum process points, its shape unchanged |
| ProjectCreation.ProjectCreationComponent.ToFeatures | client/src/app/project-creation/project-creation/project-creation.component.ts:204 | one feature per draft, each its own geometry; a geometry shared by several drafts carries the last one's labels; no shape changes |
| ProjectCreation.ProjectCreationComponent.FitToFeatures | client/src/app/project-creation/project-creation/project-creation.component.ts:214-227 | one fit request: the visible extent of the map size less 25 px per side, extended by every new feature, with the map size and 25 px padding; it covers every new feature |
| ProjectCreation.ProjectCreationComponent.CommitFeatures | client/src/app/project-creation/project-creation/project-creation.component.ts:204-205 | the drafts' geometries are appended to the committed collection, labelled as `ToFeatures` states, shapes unchanged; distinct geometries not yet committed add exactly the drafts' ids |
| ProjectCreation.ProjectCreationComponent.FitAndLimit | client/src/app/project-creation/project-creation/project-creation.component.ts:208-231 | `FittedAndLimited`: without a map size only `MapSizeError` is appended and nothing else changes; otherwise one fit request for `ExtendAll` of the visible extent and the new features' extents, which covers each of them, and when `CanAddTasks` is false (the drafts have reached the limit) draw, modify and remove end off, select on, select features, preview and selection cleared, else nothing else changes |
| ProjectCreation.ProjectCreationComponent.AddTasks | client/src/app/project-creation/project-creation/project-creation.component.ts:202-232 | the `tasksAdded` handler: features appended and labelled, shapes unchanged, then `FittedAndLimited` for their extents |
| ProjectCreation.ProjectCreationComponent.AddDrafts | client/src/app/project-creation/project-creation/project-creation.component.ts:72-74 | a batch appended to the draft service reaches `addTasks`: drafts and features appended, labelled, `FittedAndLimited`; the id mirror is kept when the geometries are distinct and not yet committed |
| ProjectCreation.ProjectCreationComponent.RemoveTask | client/src/app/project-creation/project-creation/project-creation.component.ts:234-241 | the committed collection becomes `RemovedById` of the old one |
| ProjectCreation.ProjectCreationComponent.OnTaskChanged | client/src/app/project-creation/project-creation/project-creation.component.ts:82-85 | the old feature is removed by id, then the changed draft's geometry is appended, labelled; `FittedAndLimited` for its extent; the committed ids become those left by the removal plus the draft's id (see `ReplaceKeepsMirror`) |
| ProjectCreation.ProjectCreationComponent.OnProjectPropertiesImported | client/src/app/project-creation/project-creation/project-creation.component.ts:86-88 | the imported properties become the component's project properties |
| ProjectCreation.ProjectCreationComponent.OnDrawEnd | client/src/app/project-creation/project-creation/project-creation.component.ts:249-252 | the drawn draft is added to the service and its geometry to the committed collection, labelled; `FittedAndLimited` for its extent; ids stay mirrored when the geometry was not yet committed |
| ProjectCreation.ProjectCreationComponent.OnRemoveSelected | client/src/app/project-creation/project-creation/project-creation.component.ts:269-274 | nothing happens without a selected feature; otherwise the first feature's id is removed from the service and the collection; mirroring and unique ids are preserved |
| ProjectCreation.ProjectCreationComponent.OnSelectSelected | client/src/app/project-creation/project-creation/project-creation.component.ts:283-289 | the first clicked feature's id is selected, or the draft deselected when nothing was hit; the preview is cleared |
| ProjectCreation.ProjectCreationComponent.OnDividePreviewClicked | client/src/app/project-creation/project-creation/project-creation.component.ts:396-399 | the preview holds exactly the given drafts' geometries, labelled |
| ProjectCreation.ProjectCreationComponent.CreateProject | client/src/app/project-creation/project-creation/project-creation.component.ts:320-334 | no request without a current user id; otherwise exactly one request with the owner as the only member |
| ProjectCreation.ProjectCreationComponent.OnZoomIn | client/src/app/project-creation/project-creation/project-creation.component.ts:348-355 | an undefined or zero zoom is left alone; any other zoom goes up by one, held to the view's `[0, 19]` range (lines 126-127) |
| ProjectCreation.ProjectCreationComponent.OnZoomOut | client/src/app/project-creation/project-creation/project-creation.component.ts:357-364 | an undefined or zero zoom is left alone; any other zoom goes down by one, held to the view's `[0, 19]` range (lines 126-127) |
| OlMap.ConstrainZoom | client/src/app/project-creation/project-creation/project-creation.component.ts:126-127 | a requested zoom is held to `[minZoom, maxZoom]`: unchanged inside, the nearer bound outside |
| ProjectImport.MaxProcessPoints | client/src/app/project-creation/project-import.service.ts:32 | `Math.max` over the tasks' capacities bounds every one of them and is attained by one |
| ProjectImport.TemplateProperties | client/src/app/project-creation/project-import.service.ts:32-34 | the new project's name and description are the export's; its capacity is the largest task capacity |
| ProjectImport.TasksWithGeometry | client/src/app/project-creation/project-import.service.ts:36 | the filter (`HasGeometry`) keeps exactly the tasks with a non-empty geometry, in their order, each as often as it occurs, and keeps everything when all have one |
| Drafts.Feature.Read | client/src/app/project-creation/project-import.service.ts:39 | a feature read from a document holds the document's extent and its `id`, `name` and `maxProcessPoints` properties |
| ProjectImport.ProjectImportService.ToDrafts | client/src/app/project-creation/project-import.service.ts:38-42 | drafts exactly when every geometry document can be read (`AllRead`); then one draft per task: no id, no progress, the task's name and capacity, a fresh feature holding the document's extent and `id`/`name`/`maxProcessPoints` properties (`ReadFrom`), no two sharing a feature |
| ProjectImport.ProjectImportService.ImportProjectAsNewProject | client/src/app/project-creation/project-import.service.ts:31-45 | the template properties are emitted; if a kept geometry document cannot be read the import stops there with the drafts unchanged; otherwise the drafts of the tasks with geometry, in order, read from their documents, are appended to the draft service in one call |
| ProjectImport.ProjectImportService.ImportProject | client/src/app/project-creation/project-import.service.ts:50-59 | the export is forwarded, then an info or an error notification follows from the outcome; the drafts are not touched |
| Sequences.IndexOf | client/src/app/task/task-list/task-list.component.ts:26 | `indexOf` (and Go's `strings.Index` on a single character) is -1 exactly when the element is absent, otherwise the position of its first occurrence |
| Sequences.IndexOfFirst | client/src/app/task/task-list/task-list.component.ts:26 | the first position holding the object is the one `indexOf` returns |
| TaskList.ReplaceKeeps | client/src/app/task/task-list/task-list.component.ts:27-29 | `Replace` (the assignment at the found index) with the object found by identity leaves the list unchanged |
| TaskList.ApplyUpdatesKeeps | client/src/app/task/task-list/task-list.component.ts:25-31 | the whole update loop (`ApplyUpdates`) leaves the list unchanged |
| TaskList.FindById | client/src/app/task/task-list/task-list.component.ts:45 | `find` yields the first task with the id, and nothing exactly when no task has it |
| TaskList.FindByIdFirst | client/src/app/task/task-list/task-list.component.ts:45 | the first task with the id is the one `find` returns |
| TaskList.TaskTitle | client/src/app/task/task-list/task-list.component.ts:48-50 | the title is the name, or the id when the name is empty |
| TaskList.AssignedOnlyWithUser | client/src/app/task/task-list/task-list.component.ts:40-42 | `IsAssignedToCurrentUser` holds only when both an assignee and a current user exist and their ids agree |
| TaskList.TaskListComponent.IndexIn | client/src/app/task/task-list/task-list.component.ts:26 | the search over the task array returns `IndexOf` of its contents |
| TaskList.TaskListComponent.OnTasksUpdated | client/src/app/task/task-list/task-list.component.ts:24-32 | the array becomes `ApplyUpdates` of its old contents, which equals its old contents |
| TaskList.TaskListComponent.OnListItemClicked | client/src/app/task/task-list/task-list.component.ts:44-46 | one select request carrying the first task with the id, or nothing |
| MapView.MapComponent.constructor | client/src/app/common/components/map/map.component.ts:43-49 | the view starts at the initial centre with zoom 14, with no animations or fits |
| MapView.MapComponent.OnZoomIn | client/src/app/common/components/map/map.component.ts:63-70 | an undefined or zero zoom does nothing; otherwise one 250 ms animation to zoom + 0.5 |
| MapView.MapComponent.OnZoomOut | client/src/app/common/components/map/map.component.ts:72-79 | an undefined or zero zoom does nothing; otherwise one 250 ms animation to zoom - 0.5 |
| MapView.MapComponent.FitMapView | client/src/app/common/components/map/map.component.ts:97-103 | one fit request for the extent with the map size and 25 px padding on each side |
| MapView.MapComponent.MoveToOutsideGeometry | client/src/app/common/components/map/map.component.ts:105-111 | a visible geometry (one whose extent `Intersects` the view's) leaves the centre alone; otherwise the view is centred on it; a well-formed geometry is visible afterwards for a non-negative resolution and viewport |
| MapView.SharedPointIntersects | client/src/app/common/components/map/map.component.ts:106 | two extents sharing a point satisfy `Intersects` |
| ServerTask.DraftError | server/task/task.go:52-66 | a task is valid exactly when it has at least 1 maximum process point and parses to a polygon feature |
| ServerTask.FirstDraftErrorNone | server/task/task.go:52-70 | `FirstDraftError` finds nothing exactly when every task is valid |
| ServerTask.FirstDraftErrorAt | server/task/task.go:52-70 | `FirstDraftError` is the error of the first invalid task |
| ServerTask.ValidateDrafts | server/task/task.go:52-70 | the validation loop returns the first invalid task's error |
| ServerTask.ToTaskIds | server/task/task.go:82-88 | the ids of the tasks, position by position |
| ServerTask.TrimSpace | server/task/task.go:97 | the result is a slice of the string, with only white space cut off each end and no white space left at either end |
| ServerTask.TrimSpaceEmpty | server/task/task.go:97 | the trimmed assignee is empty exactly when it is all white space |
| ServerTask.TaskService.GetTasks | server/task/task.go:41-48 | a denied membership returns its error; otherwise exactly the project's tasks, each once |
| ServerTask.TaskService.AddTasks | server/task/task.go:51-80 | success exactly when every task is valid; on failure the first invalid task's error and no change; on success every task stored under a new id, unassigned and without progress, nothing else changed |
| ServerTask.TaskService.StoreTasks | server/task/task.go:72-75 | every task is stored under its new id in the project, unassigned and without progress, old entries kept |
| ServerTask.TaskService.AssignUser | server/task/task.go:90-108 | an unknown task is not found; a task that is not `Unassigned` (its assignee not blank after trimming) is refused; otherwise only that task's assignee changes |
| ServerTask.TaskService.UnassignUser | server/task/task.go:110-123 | a denied assignment check and an unknown task fail without change; otherwise the assignee is cleared |
| ServerTask.TaskService.SetProcessPoints | server/task/task.go:127-162 | success exactly when the applicable permission holds, the task exists and the points lie in `[0, maxProcessPoints]`; only then does the task's progress change |
| ServerTask.TaskService.Delete | server/task/task.go:168-181 | a denied membership changes nothing; otherwise exactly the given tasks are removed |
| ServerApi.BadRequestError | server/api/api_util.go:21-26 | status 400 carrying the error |
| ServerApi.InternalServerError | server/api/api_util.go:28-33 | status 500 carrying the error |
| ServerApi.JsonResponse | server/api/api_util.go:35-40 | status 200 carrying the data |
| ServerApi.EmptyResponse | server/api/api_util.go:42-47 | status 200 without data |
| ServerApi.ResponseStatusCodes | server/api/api_util.go:21-47 | only the two error constructors give a non-200 status, and both carry their error |
| ServerApi.PanicOf | server/api/api_util.go:139-142 | a handler outcome leads to a panic exactly when it is not a 200 response |
| ServerApi.BodyOf | server/api/api_util.go:144-147 | a body is written exactly when the response carries data |
| ServerApi.RequestEffects | server/api/api_util.go:108-148 | the handler runs first; an internal error exactly when it panics or does not return 200; a body only for a 200 with data; no transaction |
| ServerApi.AuthenticatedEffects | server/api/api_util.go:153-228 | an invalid token gives only a 401 and a failed context only a 500; the handler runs exactly otherwise; commit exactly on a 200 and a successful commit; otherwise an internal error then rollback; a body only after commit |
| ServerApi.Exchange.HandleRequest | server/api/api_util.go:108-148 | the exchange performs `RequestEffects` and no transaction is opened |
| ServerApi.Exchange.HandleAuthenticatedRequest | server/api/api_util.go:153-228 | the exchange performs `AuthenticatedEffects`; the transaction ends committed on the success path and rolled back on every failing path that opened one |
| ServerApi.Exchange.AuthenticatedWebsocket | server/api/api_util.go:74-104 | a missing token (`TokenMissing`: empty, `null` or `\u009e`) is refused first; otherwise the token is verified and only a valid one reaches the handler |
| ServerConfig.ValueOf | server/config/config.go:60-61 | an unset variable reads as the empty string, a set one as its value |
| ServerConfig.DbPasswordAsWritten | server/config/config.go:73-78 | as written, the password follows the password variable whenever the username variable is provided, and keeps its value otherwise |
| ServerConfig.DbPasswordResolved | server/config/config.go:73-78 | corrected: the password follows the password variable exactly when that variable is provided |
| ServerConfig.PasswordGuardCounterexample | server/config/config.go:73-78 | with the username set to "alice" and the password variable unset, the code as written gives the empty password; the corrected rule keeps "secret" |
| ServerConfig.PasswordRulesAgree | server/config/config.go:66-78 | the two rules agree whenever the username and password variables are either both provided or both not |
| ServerConfig.Config.InitDefault | server/config/config.go:81-89 | zero values except token validity "24h", database account "stm"/"secret" and 1000 tasks per project |
| ServerConfig.Config.ApplyEnvironment | server/config/config.go:59-78 | OAuth key and secret always replaced; username, and password under the corrected rule, replaced only by a provided value; nothing else changes |
| ServerConfig.LoadConfig | server/config/config.go:44-89 | defaults, then the environment: the resulting database account (password under the corrected rule, equal to `DbPasswordAsWritten` whenever both variables are provided or both are not), OAuth settings, token validity and task limit |
| ServerConfig.Split | server/config/config.go:100 | `strings.Split` always yields at least one piece |
| ServerConfig.JoinSplit | server/config/config.go:106 | joining the pieces of a split with the same separator gives the string back |
| ServerConfig.SplitHead | server/config/config.go:100 | the first piece is the text before the first separator, or the whole string without one |
| ServerConfig.SplitTail | server/config/config.go:106 | the pieces after the first are the pieces of the text after the first separator |
| ServerConfig.SplitNoSep | server/config/config.go:100 | without a separator the split is the whole string alone |
| ServerConfig.PropertyNameIsPrefix | server/config/config.go:100 | `PropertyName`: a property's name is the text before its first `:` |
| ServerConfig.PropertyValueIsRest | server/config/config.go:102-107 | `PropertyValue`: `DbPassword` and `OauthSecret` show the mask; any other property shows everything after its first `:`, colons included, or nothing without one |
| ServerConfig.PadRight | server/config/config.go:109 | `%-*s` keeps the text and fills with spaces up to the width, never truncating |
| ServerConfig.FormatConfig | server/config/config.go:98-110 | a header line, then one padded `name = value` line (`PropertyLine`) per property, in order |

## Left out

- ProjectImport.MaxProcessPoints: requires at least one task. For an export without tasks the source's `Math.max()` gives `-Infinity`, which has no counterpart among integers.
- ProjectImport.TemplateProperties: requires at least one task, for the same reason.
- ProjectImport.ProjectImportService.ImportProjectAsNewProject: requires at least one task, for the same reason.
- ProjectCreation.ProjectCreationComponent.CommitFeatures: appends every geometry, even one already in the committed collection or repeated in the batch. The map library's `VectorSource.addFeatures` rejects such a feature ("feature already added"); the model does not capture that failure, and the id mirror is stated only for distinct geometries not yet committed.
- ProjectCreation.ProjectCreationComponent.AddTasks: inherits that gap from `CommitFeatures`.
- ProjectCreation.ProjectCreationComponent.OnDrawEnd: states the id mirror only for a drawn geometry that is not yet in the collection. A draft service that returns an already committed feature is outside what drawing produces.
- ProjectCreation.ProjectCreationComponent.OnTaskChanged: states the committed id list rather than the mirror itself; `ReplaceKeepsMirror` turns it into the mirror for unique ids and a geometry not committed under another draft.
- ServerConfig.Config.ApplyEnvironment: uses the corrected password rule (see Findings). The rule as written is `ServerConfig.DbPasswordAsWritten`.
- ServerConfig.LoadConfig: uses the corrected password rule too. It agrees with the rule as written, `ServerConfig.DbPasswordAsWritten`, only when the username and password variables are both provided or both not.
- ServerTask.TaskService.GetTasks: promises the project's tasks, each once, but not the database's order.
- ServerTask.TaskService.AssignUser: a store failure after the checks is not modelled. The same holds for the other store calls of the task service; "not found" is the only store error modelled.
- The draft service (`TaskDraftService`) is not part of this model. `Drafts.TaskDraftService` is a stand-in: a list of drafts and a selected id, with add, remove-by-id, select and deselect. Its `toTaskDraft` is an input to `OnDrawEnd`, and the `false` flag passed on `drawend` is ignored.
- The map-centre restore from and save to `localStorage` (project-creation.component.ts:131-140) is browser storage.
- `onSaveButtonClicked` (project-creation.component.ts:299-318) is left out. It clones the features and reprojects them from EPSG:3857 to EPSG:4326: coordinate reprojection is floating-point geometry outside the model. `CreateProject` takes the features as given.
- The project service's response to `createNewProject` is left out: navigation on success, an error notification on failure. Only the request is recorded.
- Styles and layers are rendering only: `getStyle`, `getPreviewStyle`, the tab titles and the tile layer.
- The map component's add/remove layer and interaction handlers (map.component.ts:81-95) forward to the map library unchanged.
- Polygons are represented by their extents. The map library's view is reduced to a centre, a resolution and a zoom, with no coupling between resolution and zoom. `View.fit` and `animate` are recorded as requests, not carried out.
- GeoJSON and feature-document parsing are function parameters: `readFeature` on the client, `UnmarshalFeature` on the server. On the client the reader yields None where `readFeature` throws, and a `FeatureDocument` with the extent and the `id`, `name` and `maxProcessPoints` properties otherwise; other properties and the document's top-level feature id are not modelled.
- The database-generated ids of new tasks are a parameter, required fresh and distinct.
- Logging (`Log`, `Debug`, `Err`, `Stack`) and the stack traces of recovered panics are omitted, as output only.
- The hard-coded `AddUser("1", …)` in handleAuthenticatedRequest (api_util.go:181) is left out. It belongs to the project service, which is not part of this model.
- The websocket sender's initialisation (api_util.go:100) is left out, and so is the removal of the token from the query.
- HTTP headers are left out, including the `Authorization` header that carries the token. Token verification is a boolean outcome.
- PrintConfig's `%#v` rendering and its first two splits (on `{` and on `", "`) depend on Go's reflection-based formatting. `FormatConfig` takes the resulting property list.
- `LoadConfig` does not read or decode the configuration file. It starts from the defaults and applies the environment. A fatal exit on an unreadable file is not modelled.

## Findings

| source | as written | input that shows it | evidently intended | confidence | as-written member | corrected member |
|---|---|---|---|---|---|---|
| server/config/config.go:73-78 | the database-password override tests the username lookup (`len(dbUsername) == 0 \|\| !ok`) instead of the password lookup | `STM_DB_USERNAME=alice` with `STM_DB_PASSWORD` unset sets the password to "" instead of keeping "secret"; with the username unset, a provided password is ignored | override the password exactly when `STM_DB_PASSWORD` is set to a non-empty value, like the username | high, not executed | ServerConfig.DbPasswordAsWritten, ServerConfig.PasswordGuardCounterexample | ServerConfig.DbPasswordResolved, ServerConfig.Config.ApplyEnvironment |
