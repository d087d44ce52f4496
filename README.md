# vr-panorama, modelled in Dafny

The vr-panorama repository is a collection of WebXR demos:
- three React editors that place cubes, spheres and loaded models inside a panorama (`project-old`, `project-vr-panorama`, `project3`);
- a plain three.js panorama viewer with video billboards and a two-controller grab tool (`project`);
- two multiplayer rooms that synchronise headset and controller poses over PeerJS (`project-multi`, `multi-with-glb`, the latter a shooting game);
- a floating menu (`combat-menu`).

This project models the logic of those demos in Dafny and proves what that logic promises:
- the editor stores and their persistence;
- the editor forms;
- the drag, pinch and wheel camera controls;
- how each editor draws an object;
- the position-field sanitiser and the scene-wide listeners;
- the gyroscope unwrapping and smoothing;
- the grab and rotate state machine;
- the video billboard configuration;
- the peer registry and its retry policy;
- the pose broadcast, its receiver and the shooting game's frame;
- the shared TV's page navigation;
- the bouncing targets;
- the menu's follow filter.

Layout: one module per file.
- `common.dfy` holds the values every demo uses: vectors, `Math` helpers, the JavaScript `||` fallback and ASCII lower-casing.
- `editor_objects.dfy` holds the object list and the store actions the three editors share.
- `pose_sync.dfy` holds the wire messages, the 50 ms throttle and the send-to-open-connections fan-out.
- `camera_drag.dfy` holds the drag, pinch and wheel handlers of the React editors.
- `scene_shapes.dfy` holds what an editor draws for an object.

Components that update state in place are classes whose methods state the new fields. React refs, `useState` values and the zustand store become fields of one object, and a handler becomes a method. Pure code is functions and lemmas. Some inputs are parameters:
- clocks;
- random values (`crypto.randomUUID`, `Math.random`);
- `parseFloat` results, where `None` stands for NaN;
- the snapshot of a connection set;
- the browser's permission answers;
- the distance between two touches (the `Math.sqrt` of the touch delta).

## Model

| member | source | states |
|---|---|---|
| Common.Abs | multi-with-glb/src/components/VRScene.tsx:121 | `Math.abs`: the result is non-negative and is the value or its negation |
| Common.Clamp | project3/src/components/Scene.tsx:176-179 | the `Math.max(lo, Math.min(hi, v))` pattern lands in `[lo, hi]`, is the identity inside it and saturates at the nearer bound outside it |
| Common.NumberOr | project-old/src/components/UI.tsx:154 | `parseFloat(..) \|\| 0`: a non-zero number passes through; NaN and 0 both give the fallback |
| Common.LerpBetween | combat-menu/src/components/VRMenu.tsx:32 | for a factor in `[0, 1]` `lerp` lands between its end points and the remaining distance is `(1 - t)` times the old one |
| Common.LerpBetweenOnlyIf | multi-with-glb/src/components/RemoteUser.tsx:196 | conversely, landing between two distinct end points forces the factor into `[0, 1]`: `lerp` does not clamp `delta * 15` |
| Common.LerpVecBetween | multi-with-glb/src/components/RemoteUser.tsx:196 | `Vector3.lerp` with a factor in `[0, 1]`: every component lands between old and target, and the remaining offset is the old one scaled by `1 - t` |
| Common.LowerChar | project/src/js/video/VideoManager.js:110 | ASCII `toLowerCase` on one character: upper-case letters move up by 32, everything else is kept |
| Common.ToLower | project/src/js/video/VideoManager.js:110 | `toLowerCase` keeps the length and lower-cases character by character |
| Common.ToLowerIdempotent | project-old/src/components/Scene.tsx:8 | lower-casing an already lower-cased string changes nothing |
| EditorObjects.Merge | project3/src/store.ts:72-74 | `{ ...obj, ...updates }`: id and type are kept, each present update field overwrites, each absent one keeps the old value |
| EditorObjects.MergeLaws | project3/src/store.ts:72-74 | spreading nothing is the identity, spreading the same updates twice is spreading them once, and two spreads in a row are one spread in which the later wins |
| EditorObjects.UpdateById | project3/src/store.ts:70-76 | the `map` keeps the length, merges the updates into each entry with the id and leaves every other entry as it was |
| EditorObjects.UpdateByIdLaws | project-old/src/store.ts:36-40 | an update keeps every id and type in place, is a no-op for an id no entry carries, and is idempotent |
| EditorObjects.FindById | project-old/src/components/UI.tsx:15 | `objects.find` by id: returns an entry exactly when some entry carries the id, and then an entry with that id from the list |
| EditorObjects.FindByIdFirst | project-old/src/components/UI.tsx:15 | `find` returns the entry at the first index carrying the id |
| EditorObjects.AddObject | project-old/src/store.ts:31-34 | `addObject` appends after the untouched existing entries, selects the new id and keeps the panorama |
| EditorObjects.ClearObjects | project-old/src/store.ts:35 | `clearObjects` empties the list and the selection and keeps the panorama |
| EditorObjects.UpdateObject | project-vr-panorama/src/store.ts:39-43 | `updateObject` rewrites exactly the entries with the id; the selection and the panorama stay |
| EditorObjects.SelectObject | project-old/src/store.ts:41 | `selectObject` sets the selection to any id, present or not, and changes nothing else |
| EditorObjects.SetPanoramaUrl | project3/src/store.ts:60 | `setPanoramaUrl` sets the URL and changes nothing else |
| EditorObjects.ActionLaws | project-vr-panorama/src/store.ts:38-43 | clearing twice is clearing once, and updating an absent id leaves the whole state unchanged |
| EditorObjects.DuplicateIds | project-old/src/store.ts:31-40 | nothing rejects a duplicate id: an update of it rewrites the older entry and the new one alike, and `find` keeps returning the older one |
| EditorObjects.FindAppend | project-old/src/store.ts:31-34 | appending an entry does not change what `find` returns for an id already present |
| EditorForm.WithAxis | project-old/src/components/UI.tsx:46-55 | `{ ...position, [axis]: value }` replaces exactly the named coordinate |
| EditorForm.DecideAdd | project3/src/components/UI.tsx:26-55 | `handleAddObject`: alert exactly when a model or panorama type has an empty URL; a panorama with a URL loads it instead of adding; otherwise an object with the fresh id, the form's transform and the URL exactly for glb/fbx |
| EditorForm.AddedObjectsWellFormed | project-old/src/components/UI.tsx:24-44 | every object a form adds is not a panorama, carries a URL exactly when it is a model, and that URL is non-empty |
| EditorForm.SyncFromSelection | project-old/src/components/UI.tsx:14-22 | the selection effect copies position, scale and rotation of the object `find` returns, keeps type and URL, and leaves the form alone when nothing is found |
| EditorForm.SyncAfterAdd | project3/src/components/UI.tsx:16-55 | syncing right after an add with a fresh id leaves the form exactly as it was |
| EditorObjects.EmptyEditor | project-old/src/store.ts:25-30 | the project-old and project-vr-panorama stores start with no objects, no selection and their default panorama |
| OldStore.AddToFreshStore | project-old/src/store.ts:28-34 | after the first add the new object is selected and is what `find` returns for the selection |
| PanoramaStore.InitialPersisted | project-vr-panorama/src/store.ts:26-33 | the store starts empty with no selection and the default panorama; its persisted record is exactly that URL and no objects, and a version-0 migration leaves it alone |
| PanoramaStore.OrElse | project-vr-panorama/src/store.ts:62-63 | `obj.key \|\| fallback`: a truthy present value wins; a missing key or a falsy value gives the fallback |
| PanoramaStore.EncodeObject | project-vr-panorama/src/store.ts:52 | an object serialises to a JSON object with its id, and with a `url` key exactly when it has a URL |
| PanoramaStore.EncodeObjects | project-vr-panorama/src/store.ts:52 | the list serialises element by element, in order |
| PanoramaStore.Partialize | project-vr-panorama/src/store.ts:50-53 | the persisted record has exactly the keys `panoramaUrl` and `objects`, holding the URL and the encoded list |
| PanoramaStore.SelectionNotPersisted | project-vr-panorama/src/store.ts:44-53 | selecting never changes the persisted record |
| PanoramaStore.Migrate | project-vr-panorama/src/store.ts:57-67 | a record of any version other than 0 is returned as is; a version-0 record keeps all its other keys and gains truthy-or-default `panoramaUrl` and `objects` |
| PanoramaStore.MigrateIdempotent | project-vr-panorama/src/store.ts:57-67 | after a version-0 migration both fields are truthy, so migrating again changes nothing |
| PanoramaStore.MigratePartialized | project-vr-panorama/src/store.ts:50-67 | a record this store persisted survives a version-0 migration unchanged unless its URL is empty, in which case the default replaces it |
| Project3Store.Initial | project3/src/store.ts:56-59 | the exported store starts from the inner store's objects, no selection, the black default panorama and the gyroscope off |
| Project3Store.SetGyroscopeEnabled | project3/src/components/UI.tsx:128 | `useStore.setState({ gyroscopeEnabled })` changes only the flag |
| OldUI.ControlPanel.constructor | project-old/src/components/UI.tsx:6-12 | the panel starts with position (0, 0, -3), scale 1, rotation 0, a cube, an empty URL and the initial store |
| OldUI.ControlPanel.HandleAddObject | project-old/src/components/UI.tsx:24-44 | a rejected add changes nothing; a panorama sets the store's URL and clears the field; an added object is appended and the form, URL included, is kept |
| OldUI.ControlPanel.HandlePositionChange | project-old/src/components/UI.tsx:46-55 | the form takes the new coordinate (`parseFloat \|\| 0`), and the selected object, when the selection is truthy, gets the whole new position; otherwise the store is untouched |
| OldUI.ControlPanel.HandleScaleChange | project-old/src/components/UI.tsx:57-62 | the form takes the scale, and a truthy selection gets it in the store |
| OldUI.ControlPanel.HandleRotationChange | project-old/src/components/UI.tsx:64-69 | the form takes the `parseInt` angle, and a truthy selection gets it in the store |
| OldUI.ControlPanel.ClearAllObjects | project-old/src/components/UI.tsx:201 | the button clears the store only; the form keeps its transform |
| OldUI.ControlPanel.SyncSelection | project-old/src/components/UI.tsx:14-22 | the selection effect leaves the store alone and sets the form to `SyncFromSelection` |
| OldUI.RepeatedModelAdd | project-old/src/components/UI.tsx:24-44 | as the URL is kept, adding a model twice gives two objects that differ only in their ids |
| Project3UI.ControlPanel.constructor | project3/src/components/UI.tsx:7-12 | the panel starts with position (0, 0, -5), scale 2, rotation 0, a cube, an empty URL, the gyroscope off and the store's initial state |
| Project3UI.ControlPanel.HandleAddObject | project3/src/components/UI.tsx:26-55 | a rejected add changes nothing; a panorama sets the URL and clears the field; an added object is appended, and the URL field is cleared exactly for glb/fbx |
| Project3UI.ControlPanel.HandlePositionChange | project3/src/components/UI.tsx:57-66 | the form takes the new coordinate, a truthy selection gets the whole new position, the gyroscope flags are untouched |
| Project3UI.ControlPanel.HandleScaleChange | project3/src/components/UI.tsx:68-76 | the form takes the scale and a truthy selection gets it |
| Project3UI.ControlPanel.HandleRotationChange | project3/src/components/UI.tsx:78-86 | the form takes the angle and a truthy selection gets it |
| Project3UI.ControlPanel.HandleClearObjects | project3/src/components/UI.tsx:99-106 | the store is cleared and the form's transform goes back to (0, 0, -5), 2, 0 |
| Project3UI.ControlPanel.HandleLoadSamplePanorama | project3/src/components/UI.tsx:108-112 | only the panorama URL changes, to the sample image |
| Project3UI.ControlPanel.ToggleGyroscope | project3/src/components/UI.tsx:114-133 | the local and the store flag flip together exactly when the toggle is allowed, and otherwise both stay (a refusal throws before either write) |
| Project3UI.ControlPanel.SyncSelection | project3/src/components/UI.tsx:16-24 | the selection effect leaves the store alone and sets the form to `SyncFromSelection` |
| Project3UI.ToggleRules | project3/src/components/UI.tsx:114-126 | switching off never needs a permission; switching on passes exactly when the permission API is absent or answers 'granted' |
| UIControls.SubsequenceTrans | project/src/js/ui/UIControls.js:105-113 | deleting characters in two rewrites in a row is deleting characters once (the relation the sanitiser laws are stated in) |
| UIControls.KeepAllowed | project/src/js/ui/UIControls.js:105 | `replace(/[^\d.-]/g, '')` leaves only digits, '.' and '-', in their original order |
| UIControls.Count | project/src/js/ui/UIControls.js:107-108 | the occurrence count is at most the length and is 0 exactly when the character is absent |
| UIControls.Split | project/src/js/ui/UIControls.js:107 | `split('.')` gives one more piece than there are dots |
| UIControls.RemoveAll | project/src/js/ui/UIControls.js:109 | deleting every occurrence of a character leaves none and keeps the rest in order |
| UIControls.IndexOf | project/src/js/ui/UIControls.js:111 | `indexOf` is -1 exactly when the character is absent, and otherwise the first position holding it |
| UIControls.ConcatSplit | project/src/js/ui/UIControls.js:109 | `split(c).join('')` deletes every `c` |
| UIControls.DotRepairIsKeepFirstDot | project/src/js/ui/UIControls.js:107-110 | the split-and-join repair keeps everything up to the first '.' and deletes every later '.' |
| UIControls.DotRepairLaws | project/src/js/ui/UIControls.js:107-110 | after the dot repair at most one '.' is left, and the result is the input with characters deleted |
| UIControls.MinusRepairLaws | project/src/js/ui/UIControls.js:111-113 | a leading '-' or no '-' leaves the text alone; a later '-' deletes exactly the first '-'; the dots are untouched |
| UIControls.SanitiseLaws | project/src/js/ui/UIControls.js:105-115 | the field text ends as only digits, '.' and '-', at most one '.', obtained from the input by deleting characters |
| UIControls.SanitiseNotIdempotent | project/src/js/ui/UIControls.js:111-113 | one pass turns "1-2-3" into "12-3" and a second pass into "123": sanitising the result again changes it, so the rewrite is not idempotent |
| UIControls.SanitiseFirst | project/src/js/ui/UIControls.js:103-113 | the first pass: no character is dropped, no '.' is present, and the first '-' (index 1) is deleted |
| UIControls.SanitiseSecond | project/src/js/ui/UIControls.js:103-113 | the second pass deletes the remaining '-' |
| UIControls.FieldPosition | project/src/js/ui/UIControls.js:117-119 | the fields read as `x \|\| 0`, `y \|\| 0`, `z \|\| -3`, so a typed z of 0 becomes -3 |
| UIControls.SceneObject.constructor | project/src/js/loaders/ModelLoader.js:185-209 | `createBasicObject` sets position, uniform scale, the y rotation and the remembered initial rotation |
| UIControls.Dispatch | project/src/js/ui/UIControls.js:205-215 | 'custom' goes to the GLTF loader and 'fbx' to the FBX loader with the field values; any other type builds a basic object of that type |
| UIControls.ObjectScene.constructor | project/src/js/ui/UIControls.js:121 | the scene starts with no objects and the given video plane |
| UIControls.ObjectScene.ApplyPosition | project/src/js/ui/UIControls.js:121-125 | every scene object except the video plane moves to the position; scale, rotation, `initialRotation` and `initialScaleFactor` are kept, and so is the video plane's position |
| UIControls.ObjectScene.ApplyScale | project/src/js/ui/UIControls.js:134-142 | every scene object, the video plane included, gets scale `(initialScaleFactor \|\| 1) * newScale` and keeps its position, rotation, `initialRotation` and `initialScaleFactor` |
| UIControls.ObjectScene.ApplyRotation | project/src/js/ui/UIControls.js:150-161 | every object except the video plane turns to the slider angle in radians and remembers it in `initialRotation`; the video plane keeps both, and every object keeps its position, scale and `initialScaleFactor` |
| UIControls.ObjectScene.HandleAddObject | project/src/js/ui/UIControls.js:195-216 | returns the dispatch, and for a basic type appends one fresh object with the field transform to both lists; a loader request changes no list |
| UIControls.PositionFields.constructor | project/src/js/ui/UIControls.js:97-102 | the three fields start empty |
| UIControls.PositionFields.OnInput | project/src/js/ui/UIControls.js:103-125 | the edited field (and only it) gets the sanitised text, and every object but the video plane moves to the parsed position; scale, rotation and `userData` are kept, and so is the video plane's position |
| CameraDrag.Pitch | project3/src/components/Scene.tsx:176-179 | a vertical drag step keeps the pitch in `[-pi/2, pi/2]` and is the plain sum whenever that stays in range |
| CameraDrag.PitchSaturates | project-vr-panorama/src/components/Scene.tsx:117-120 | a drag past a pole stops exactly at that pole |
| CameraDrag.ClampZoom | project3/src/components/Scene.tsx:237 | the zoom clamp yields a value in `[30, 90]` for every number and lets NaN through |
| CameraDrag.WheelZoom | project3/src/components/Scene.tsx:262-263 | the wheel moves the zoom by `deltaY * 0.01 * 1.5` and clamps it to `[30, 90]`; a NaN zoom stays NaN |
| CameraDrag.PinchZoom | project3/src/components/Scene.tsx:230-237 | for positive distances the new zoom is the clamped `initialZoom * initialDistance / distance`; both distances 0 give NaN; any number result lies in `[30, 90]` |
| CameraDrag.PinchMonotone | project-vr-panorama/src/components/Scene.tsx:159-166 | spreading the fingers further never widens the field of view |
| CameraDrag.Controls.constructor | project3/src/components/Scene.tsx:79-94 | the controls start listening, not dragging, at pitch and yaw 0, no touches, zoom and initial zoom 75 |
| CameraDrag.Controls.SetPresenting | project3/src/components/Scene.tsx:153-154 | the handlers are attached exactly when not presenting; the camera state is kept |
| CameraDrag.Controls.MouseDown | project3/src/components/Scene.tsx:159-167 | a press on a target the guard accepts starts a drag at the pointer; otherwise nothing changes |
| CameraDrag.Controls.Rotate | project-vr-panorama/src/components/Scene.tsx:113-122 | a drag step adds `dx * 0.005` to the yaw, clamps the pitch step and records the new position |
| CameraDrag.Controls.MouseMove | project3/src/components/Scene.tsx:169-182 | while dragging, the yaw and pitch follow the pointer delta and the pointer is recorded; otherwise nothing moves |
| CameraDrag.Controls.MouseUp | project3/src/components/Scene.tsx:184-186 | releasing ends any drag and changes nothing else |
| CameraDrag.Controls.TouchStart | project3/src/components/Scene.tsx:188-208 | outside the UI: the touch count is stored; one touch starts a drag at it; two store the finger distance and the current zoom; a UI target changes nothing |
| CameraDrag.Controls.TouchMove | project3/src/components/Scene.tsx:210-239 | one dragging touch turns the camera by the delta times the touch sensitivity; two touches set the pinch zoom whether or not a one-finger drag is still in progress; the pinch start and the drag flag are never changed |
| CameraDrag.Controls.TouchEnd | project3/src/components/Scene.tsx:241-252 | the remaining touch count is stored and the drag ends exactly when no touch remains |
| CameraDrag.Controls.Wheel | project3/src/components/Scene.tsx:254-264 | outside the UI the zoom becomes the wheel zoom; the rotation and the touch state are untouched |
| SceneShapes.Dispatch | project3/src/components/Scene.tsx:24-70 | a cube draws a box and a sphere a sphere; glb and fbx draw their loader's model exactly when the url is truthy; anything else draws nothing |
| SceneShapes.DispatchAll | project-vr-panorama/src/components/Scene.tsx:233-235 | the group's children are exactly the non-null component results, in object order: at most one per object, and one per object when all are primitives |
| Project3Scene.Draw | project3/src/components/Scene.tsx:19-71 | a node is drawn exactly for a cube, a sphere, or a glb/fbx with a truthy url; it is the shared branch's node, placed at the stored position, rotated by the stored degrees in radians, at half the stored scale |
| Project3Scene.PlacementInverts | project3/src/components/Scene.tsx:21-22 | the drawn angle is the stored degrees in radians and the drawn size is half the stored scale, so both stored values are recovered |
| Project3Scene.NewControls | project3/src/components/Scene.tsx:85-94 | project3 installs UI-gated handlers with touch sensitivity 1.2 and zoom 75 |
| PanoramaScene.Draw | project-vr-panorama/src/components/Scene.tsx:20-71 | a node is drawn exactly for a cube, a sphere, or a glb/fbx with a truthy url; it is the shared branch's node, placed at the stored position, rotated a quarter of the stored degrees in radians, at the stored scale |
| PanoramaScene.PlacementQuarter | project-vr-panorama/src/components/Scene.tsx:22 | the drawn angle is a quarter of the degrees-to-radians value (a stored 360 is a quarter turn) and the scale is the stored one |
| PanoramaScene.AgainstProject3 | project-vr-panorama/src/components/Scene.tsx:22-26 | against project3 the same object is drawn at twice the size and a quarter of the angle |
| PanoramaScene.NewControls | project-vr-panorama/src/components/Scene.tsx:85-91 | this editor starts a mouse drag only from the canvas, touch sensitivity 2 and zoom 75 |
| OldScene.LastSegment | project-old/src/components/Scene.tsx:8 | `split('.').pop()` is a dot-free suffix of the url, preceded by a dot unless it is the whole url |
| OldScene.LastSegmentAfterDot | project-old/src/components/Scene.tsx:8 | whatever precedes the last dot, the part after it is the extension |
| OldScene.ExtensionDecides | project-old/src/components/Scene.tsx:7-19 | the loader is decided by the lower-cased last segment alone |
| OldScene.UpperCaseLoads | project-old/src/components/Scene.tsx:8-11 | an upper-case `.GLB` loads through GLTF |
| OldScene.LastPartDecides | project-old/src/components/Scene.tsx:8-18 | `x.glb.zip` loads nothing: only the last part counts |
| OldScene.BareNameLoads | project-old/src/components/Scene.tsx:8-11 | a url with no dot is its own extension, so the bare string `glb` loads |
| OldScene.Draw | project-old/src/components/Scene.tsx:21-86 | the node sits at the stored transform in radians; glb/fbx are groups holding a model exactly when the url is truthy with a known extension and a selection box exactly when selected; other kinds are box or sphere meshes coloured green exactly when selected |
| OldScene.OneHighlighted | project-old/src/components/Scene.tsx:27 | with distinct ids at most one drawn object is highlighted, and it carries the selected id |
| OldScene.PanoramaDrawsSphere | project-old/src/components/Scene.tsx:63-65 | a `panorama` object falls through to the mesh branch and is drawn as a grey sphere |
| OldScene.Missed | project-old/src/components/Scene.tsx:47 | any missed handler clears the selection, and nothing else changes |
| OldScene.ClickHighlights | project-old/src/components/Scene.tsx:29-32 | after a click the clicked object is selected and drawn highlighted, whatever the missed handlers did before |
| OldScene.MissClearsHighlight | project-old/src/components/Scene.tsx:47-78 | a click on empty space leaves no object highlighted |
| OldScene.NewControls | project-old/src/components/Scene.tsx:93-138 | project-old installs only the canvas-gated mouse handlers, starting at pitch and yaw 0 |
| VideoManager.BlendingCaseInsensitive | project/src/js/video/VideoManager.js:109-117 | the blend table only sees the lower-cased name, so any spelling in any case selects the same mode |
| VideoManager.BlendingDefault | project/src/js/video/VideoManager.js:115 | a name outside additive, multiply, normal and subtract is drawn additively |
| Common.OrDefault | project/src/js/video/VideoManager.js:12-22 | a destructuring default (or a spread's missing field) applies exactly when the value is absent |
| VideoManager.ResolveLaws | project/src/js/video/VideoManager.js:12-22 | a given field is used as given, an empty configuration resolves to (0, 0, -20), 0.3, 5.6, 9, 0.8, 0.1, 'additive', 0, and re-resolving a spelled-out result changes nothing |
| VideoManager.ConfiguredVideosAdditive | project/src/js/config.js:16-83 | every configured video, 'Overlay' and 'screen' included, is drawn additively |
| VideoManager.OverlayAdditive | project/src/js/config.js:26 | the 'Overlay' mode is not in the table and falls back to additive |
| VideoManager.ScreenAdditive | project/src/js/config.js:37 | the 'screen' mode is not in the table and falls back to additive |
| VideoManager.Save | project/src/js/controllers/VRController.js:96-104 | releasing a video plane writes its position and yaw under `videoId + '_position'` and keeps every other key |
| VideoManager.Placement | project/src/js/video/VideoManager.js:128-142 | a saved entry that parses gives the saved position and yaw; a missing, empty or unparsable entry gives the configured position and angle in radians |
| VideoManager.Lookup | project/src/js/video/VideoManager.js:128 | `localStorage.getItem` finds an entry exactly when the key is stored |
| VideoManager.NewPlane | project/src/js/video/VideoManager.js:11-31 | a new plane is named by its id, placed from the entry under `id + '_position'`, remembers the applied yaw and the configured position, and takes the resolved size, opacity, feather and blend mode |
| VideoManager.SavedPositionLost | project/src/js/video/VideoManager.js:125-142 | with an id not drawn before, nothing saved under earlier ids is found and the plane starts at its configured position and angle |
| VideoManager.StableId | project/src/js/video/VideoManager.js:125 | the corrected id is `video_` followed by the source, so distinct sources get distinct ids |
| VideoManager.SavedPositionRestored | project/src/js/controllers/VRController.js:96-104 | with the source-derived id, the saved record (position and saved `rotation.y`) is what the plane is created with next time |
| VideoManager.PositionsMap | project/src/js/video/VideoManager.js:160-169 | the positions object has exactly the planes' sources as keys |
| VideoManager.PositionsMapLastWins | project/src/js/video/VideoManager.js:162-168 | for each source the entry is the last plane with that source, its position and yaw |
| VideoManager.Manager.constructor | project/src/js/video/VideoManager.js:5-9 | the manager starts with no planes |
| VideoManager.Manager.CreateVideoPlane | project/src/js/video/VideoManager.js:124-157 | returns the new plane for the drawn id and appends it to the plane list |
| VideoManager.Manager.CreateVideoPlaneStable | project/src/js/video/VideoManager.js:124-157 | the same with the source-derived id |
| VideoManager.Manager.SaveVideoPositions | project/src/js/video/VideoManager.js:160-169 | the loop builds exactly `PositionsMap` of the plane list |
| VRMenu.Target | combat-menu/src/components/VRMenu.tsx:27-31 | the target is at the player's x, eye height 1.6 and two metres in front along -z |
| VRMenu.FollowShrinks | combat-menu/src/components/VRMenu.tsx:32 | after n frames towards a still target the remaining offset is 0.9^n of the start, and the menu never passes the target on any axis |
| VRMenu.ItemY | combat-menu/src/components/VRMenu.tsx:119 | no item sits above 0.2 |
| VRMenu.ItemsDescend | combat-menu/src/components/VRMenu.tsx:113-119 | items descend strictly in steps of 0.15, from 0.2 down to -0.25 for the four items |
| VRMenu.Menu.constructor | combat-menu/src/components/VRMenu.tsx:12-16 | the menu starts visible at the origin |
| VRMenu.Menu.PresentingChanged | combat-menu/src/components/VRMenu.tsx:19-23 | presenting shows the menu, nothing ever hides it, and the positions are untouched |
| VRMenu.Menu.Frame | combat-menu/src/components/VRMenu.tsx:25-40 | with a mounted group and a player the position moves a tenth of the way to the target and the group copies it; otherwise nothing moves |
| VRController.Climb | project/src/js/controllers/VRController.js:73-75 | the parent walk stops at the first registered object of the ancestor chain, or at the root when none is registered |
| VRController.ClimbSelects | project/src/js/controllers/VRController.js:73-82 | the walk ends on a registered object exactly when some object on the chain is registered |
| VRController.ClimbIsFirst | project/src/js/controllers/VRController.js:73-75 | the walk ends at the nearest registered ancestor |
| VRController.DragPosition | project/src/js/controllers/VRController.js:146-153 | the object's displacement since the grab is twelve times the controller's |
| VRController.DragReturns | project/src/js/controllers/VRController.js:147-153 | bringing the controller back to where it grabbed puts the object back where it was |
| VRController.RotationTelescopes | project/src/js/controllers/VRController.js:154-158 | over any run of two-trigger frames, the object turns by four times the change in horizontal separation since rotation began |
| VRController.Grabber.constructor | project/src/js/controllers/VRController.js:5-15 | the grabber starts with nothing selected, one trigger, `rotationStartX` 0, and each object's heading equal to its `rotation.y` |
| VRController.Grabber.TriggerStart | project/src/js/controllers/VRController.js:64-88 | with nothing selected, a hit whose walk ends on a registered object selects it with this controller and records both start positions; a miss changes nothing; the other controller's press starts rotation at the current separation |
| VRController.Reduce | project/src/js/controllers/VRController.js:157 | an angle is brought into [-pi, pi) by a whole number of turns, and one already there is kept |
| VRController.EulerY | project/src/js/controllers/VRController.js:157 | after a `rotateY` turn three.js reads `rotation.y` back in [-pi/2, pi/2]: the reduced heading when it faces forwards, otherwise pi minus it (or -pi minus it) |
| VRController.EulerYFolds | project/src/js/controllers/VRController.js:100 | the read-back equals the heading exactly when it faces forwards; a heading of 120 degrees reads back as 60 |
| VideoManager.TurnedPlaneRestoredMirrored | project/src/js/controllers/VRController.js:96-104 | a plane released facing backwards after a turn is recreated at the mirrored heading pi minus it, since x and z are not saved |
| VRController.Grabber.TriggerEnd | project/src/js/controllers/VRController.js:90-117 | the selecting controller's release clears the selection and its start position, and saves a video plane's position and its `rotation.y` field under `videoId + '_position'`; any release ends two-trigger rotation |
| VRController.Grabber.Update | project/src/js/controllers/VRController.js:143-160 | with nothing selected nothing moves; with one trigger the object follows the drag; with both the heading turns by the rotation angle, `rotation.y` becomes the Euler read-back of the new heading, and the separation is recorded |
| GyroController.OffsetStep | project/src/js/controllers/GyroController.js:116-122 | a jump of more than 180 degrees adds 360 when the reading dropped and subtracts 360 when it rose; smaller jumps add nothing |
| GyroController.Smooth | project/src/js/controllers/GyroController.js:131-134 | each smoothing step keeps nine tenths of the distance to the new reading |
| GyroController.Handle | project/src/js/controllers/GyroController.js:105-134 | an inactive controller ignores the reading; the first reading after a reset only records alpha, and a `null` alpha leaves the initial alpha unset; later ones unwrap alpha by the offset step and smooth the three angles in radians, beta shifted by -90, with `null` angles counted as 0 |
| GyroController.NullAlphaWaits | project/src/js/controllers/GyroController.js:108-111 | before the initial alpha is set, a reading without alpha keeps it unset and every later reading is handled as if that one had not come |
| GyroController.Reset | project/src/js/controllers/GyroController.js:155-163 | the reset zeroes every angle and the offset, clears the initial alpha and keeps the active flag |
| GyroController.OffsetWholeTurns | project/src/js/controllers/GyroController.js:116-122 | over any run of readings the offset moves by whole multiples of 360 only |
| GyroController.UnwrapContinuous | project/src/js/controllers/GyroController.js:114-125 | for compass readings in `[0, 360)` (a `null` one counting as 0) the unwrapped angle never jumps by more than 180 degrees between processed events |
| GyroController.ProcessedTracks | project/src/js/controllers/GyroController.js:108-125 | after the first processed reading the unwrapped angle stays in agreement with the raw reading |
| GyroController.Gyro.constructor | project/src/js/controllers/GyroController.js:4-29 | the controller starts inactive with all angles 0, no initial alpha, no listener, and the permission outcome of `init` |
| GyroController.Gyro.HandleDeviceOrientation | project/src/js/controllers/GyroController.js:105-134 | one run of the handler moves the state to `Handle` of it |
| GyroController.Gyro.OnOrientation | project/src/js/controllers/GyroController.js:78 | an event runs every attached listener in turn, once each |
| GyroController.Gyro.ResetGyroscope | project/src/js/controllers/GyroController.js:84-87 | the reset button moves the state to `Reset` of it |
| GyroController.Gyro.Toggle | project/src/js/controllers/GyroController.js:62-82 | without permission no click listener exists and a click changes nothing; otherwise, as written, switching on resets and adds a listener and switching off removes none |
| GyroController.Gyro.ToggleFixed | project/src/js/controllers/GyroController.js:62-82 | without permission a click changes nothing; otherwise, corrected, switching on resets and attaches the one bound handler, and switching off removes it |
| GyroController.ToggleListeners | project/src/js/controllers/GyroController.js:76-81 | after n clicks with permission granted the written toggle is active exactly for odd n and holds ceil(n/2) listeners; the corrected one holds one while active and none while inactive |
| GyroController.DoubleListenerSmoothsTwice | project/src/js/controllers/GyroController.js:78-80 | on, off, on leaves two listeners, and a reading then moves the smoothed pitch 0.19 of the way instead of 0.1 |
| GyroController.FixedHandlesOnce | project/src/js/controllers/GyroController.js:71-82 | with the corrected toggle each reading is handled exactly once while active and not at all while inactive |
| EventHandlers.DragAnchored | project/src/js/utils/EventHandlers.js:41-45 | a drag is anchor-relative: returning to the anchor restores its angles, and the angle moved is proportional to the distance from it (longitude against the pointer) |
| EventHandlers.PinchFov | project/src/js/utils/EventHandlers.js:96-99 | the pinch field of view is `initialFov + (initialDistance - distance) * 0.1` whenever that is in `[40, 100]`, and is always in that range |
| EventHandlers.PinchMonotone | project/src/js/utils/EventHandlers.js:96-99 | closing the fingers further never narrows the view |
| EventHandlers.WheelFov | project/src/js/utils/EventHandlers.js:132-133 | the wheel adds `deltaY * 0.05` to the field of view and clamps it to `[40, 100]` |
| EventHandlers.WheelDirection | project/src/js/utils/EventHandlers.js:132-133 | scrolling down never narrows the view and scrolling up never widens it |
| EventHandlers.ClampLat | project/src/js/utils/EventHandlers.js:138 | latitude is clamped to `[-85, 85]` and kept when inside |
| EventHandlers.Handlers.constructor | project/src/js/utils/EventHandlers.js:5-19 | the handlers start not interacting, at longitude and latitude 0, the camera's field of view |
| EventHandlers.Handlers.MouseDown | project/src/js/utils/EventHandlers.js:32-39 | a press starts interacting and anchors the pointer and the current angles |
| EventHandlers.Handlers.MouseMove | project/src/js/utils/EventHandlers.js:41-46 | while interacting, the angles are the anchored drag at the mouse speed; otherwise nothing moves |
| EventHandlers.Handlers.MouseUp | project/src/js/utils/EventHandlers.js:48-50 | a release stops interacting and changes nothing else |
| EventHandlers.Handlers.TouchStart | project/src/js/utils/EventHandlers.js:52-79 | one touch starts a drag anchored at it; two touches record the pinch distance and the field of view and anchor at their centre; any other count changes nothing |
| EventHandlers.Handlers.TouchMove | project/src/js/utils/EventHandlers.js:81-113 | one interacting touch drags at the touch speeds; two touches set the pinch field of view and pan only when the centre moved more than 5 pixels on some axis |
| EventHandlers.Handlers.TouchEnd | project/src/js/utils/EventHandlers.js:115-128 | no remaining touch ends the interaction and resets the pinch; one remaining touch re-anchors a drag at it; more change nothing |
| EventHandlers.Handlers.MouseWheel | project/src/js/utils/EventHandlers.js:130-135 | the wheel sets the field of view to `WheelFov` and changes nothing else |
| EventHandlers.Handlers.UpdateSphereRotation | project/src/js/utils/EventHandlers.js:137-138 | the latitude is clamped, nothing else changes |
| Locomotion.SnapTurn | multi-with-glb/src/components/VRScene.tsx:121-129 | a snap happens exactly when the stick is past 0.6 and more than 200 ms have passed, and turns by -45 degrees for a right push and +45 for a left one |
| Locomotion.DeadzoneAndRate | project-multi/src/components/VRScene.tsx:32-64 | a stick inside the 0.1 deadzone never moves the player, and no two snaps happen within 200 ms |
| Locomotion.GlbLocomotion.constructor | multi-with-glb/src/components/VRScene.tsx:107-108 | no snap yet and no accumulated rotation |
| Locomotion.GlbLocomotion.Frame | multi-with-glb/src/components/VRScene.tsx:110-154 | without a player or both gamepads nothing happens; otherwise a due snap turns the player and is accumulated in the reference the movement uses, and the player moves exactly when the left stick leaves the deadzone |
| Locomotion.MultiLocomotion.constructor | project-multi/src/components/VRScene.tsx:17 | no snap yet |
| Locomotion.MultiLocomotion.Frame | project-multi/src/components/VRScene.tsx:19-65 | without a player or both gamepads nothing happens; otherwise the player moves exactly when the left stick leaves the deadzone, and a due snap turns it |
| PeerStore.AddToSet | project-multi/src/store/peerStore.ts:130-132 | `new Set([...connections, c])` holds exactly the old members and `c`, without duplicates, appending `c` only when it is new |
| PeerStore.RemoveFromSet | project-multi/src/store/peerStore.ts:149-151 | the filter keeps exactly the members other than `c`, is the identity when `c` is absent and keeps the set duplicate-free |
| PeerStore.RemoveLaws | project-multi/src/store/peerStore.ts:149-151 | removing twice is removing once, and the other connections keep their relative order |
| PeerStore.AddIdempotent | project-multi/src/store/peerStore.ts:130-132 | re-adding a present connection changes nothing |
| PeerStore.ErrorStep | project-multi/src/store/peerStore.ts:84-100 | 'disconnected' reconnects; 'network' and 'server-error' retry after `2000 * attempts` with the counter raised while fewer than 5 attempts were made and give up after; other errors are ignored; the counter never passes 5 |
| PeerStore.NetworkErrorsBackoff | project-multi/src/store/peerStore.ts:89-98 | a run of network errors retries after 2000, 4000, ... ms up to the fifth attempt and gives up on every later error |
| PeerStore.PeerRegistry.constructor | project-multi/src/store/peerStore.ts:43-48 | the store starts without peer, connections, calls, stream or error, and with the counter at 0 |
| PeerStore.PeerRegistry.SetupConnection | project-multi/src/store/peerStore.ts:169-170 | `setupConnection` adds one 'open' listener to the connection and changes nothing else |
| PeerStore.PeerRegistry.AddConnection | project-multi/src/store/peerStore.ts:128-140 | the connection joins the set, gains one 'open' listener, and a call to its peer is recorded exactly when there are a peer and a local stream |
| PeerStore.PeerRegistry.RemoveConnection | project-multi/src/store/peerStore.ts:142-152 | the call keyed by the peer id is closed and forgotten, and the connection leaves the set |
| PeerStore.PeerRegistry.InitializePeer | project-multi/src/store/peerStore.ts:69-123 | a new peer replaces the old one; when `new Peer` throws, the old peer stays and the caught message becomes the error; connections and calls are kept either way |
| PeerStore.CaughtMessage | project-multi/src/store/peerStore.ts:121-123 | the error is a thrown `Error`'s message, and 'Failed to initialize peer' for any other thrown value |
| PeerStore.PeerRegistry.OnPeerOpen | project-multi/src/store/peerStore.ts:78-82 | opening clears the error and resets the counter |
| PeerStore.PeerRegistry.OnPeerError | project-multi/src/store/peerStore.ts:84-100 | the counter and reaction follow `ErrorStep`, and the give-up message is set exactly on giving up |
| PeerStore.PeerRegistry.OnIncomingConnection | project-multi/src/store/peerStore.ts:102-105 | an incoming connection joins the set and gets two 'open' listeners, since `setupConnection` runs twice; with a peer and a local stream a call to it is recorded under its peer id; nothing else changes |
| PeerStore.PeerRegistry.OnConnectionOpen | project-multi/src/store/peerStore.ts:170-188 | each 'open' listener attaches its own removal listeners on open; nothing else changes |
| PeerStore.PeerRegistry.OnConnectionClose | project-multi/src/store/peerStore.ts:179-187 | a connection that never opened has no removal listener and stays; otherwise the repeated removals leave the state of one removal; peer, stream, error and retry count stay |
| PeerStore.PeerRegistry.OnCall | project-multi/src/store/peerStore.ts:107-114 | an incoming call is answered and recorded under its peer exactly when a local stream exists; nothing else changes |
| PoseSync.FrameThrottle.constructor | project-multi/src/components/VRScene.tsx:70 | the throttle starts at the mount time |
| PoseSync.FrameThrottle.Tick | project-multi/src/components/VRScene.tsx:79-81 | a frame is processed exactly when at least 50 ms have passed since the last processed one, which it then becomes |
| PoseSync.Processed | multi-with-glb/src/components/LoadingRoom.tsx:18-19 | the processed frame times are drawn from the given times |
| PoseSync.ProcessedSpacing | multi-with-glb/src/components/VRScene.tsx:198-200 | processed frames are at least 50 ms apart, whatever order the clock readings come in |
| PoseSync.OpenSends | project-multi/src/components/VRScene.tsx:126-128 | every send carries the message to an open connection, every open connection gets it, and nothing is sent to a closed one |
| PoseSync.OpenSendsCount | project-multi/src/components/VRScene.tsx:126-128 | there is exactly one send per open connection |
| PoseSync.Broadcast | multi-with-glb/src/components/LoadingRoom.tsx:67-68 | the send loop makes exactly the sends of `OpenSends` |
| PoseSync.ControllersMap | project-multi/src/components/VRScene.tsx:90-114 | the controllers object has exactly the handednesses present as keys |
| PoseSync.ControllersMapLastWins | project-multi/src/components/VRScene.tsx:107 | under each hand is the pose of the last controller with that handedness |
| PoseSync.BuildControllersMap | multi-with-glb/src/components/LoadingRoom.tsx:28-48 | the map-filling loop builds exactly `ControllersMap` |
| PoseSync.PoseUpdate | project-multi/src/components/VRScene.tsx:117-124 | the frame's 'position' update carries the head pose and every hand's pose |
| GlbScene.Owner | multi-with-glb/src/components/VRScene.tsx:226 | `peerId \|\| 'local'`: a non-empty peer id owns the bullet, otherwise 'local' |
| GlbScene.TriggerFoldIds | multi-with-glb/src/components/VRScene.tsx:202-242 | the trigger loop keeps the earlier bullets, hands out consecutive ids from the counter, leaves the counter one past the last, and owns every new bullet by this client |
| GlbScene.TriggerFoldKeeps | multi-with-glb/src/components/VRScene.tsx:205 | a hand carried by no controller with a gamepad keeps its recorded trigger value |
| GlbScene.TriggerFoldRecords | multi-with-glb/src/components/VRScene.tsx:207-241 | each hand records `trigger \|\| 0` of the last controller with that hand and a gamepad |
| GlbScene.HeldTriggerFiresOnce | multi-with-glb/src/components/VRScene.tsx:207-210 | a trigger held above 0.9 fires on the rising edge only: a second controller step of that hand above the threshold adds no bullet |
| GlbScene.FiredIdsIncrease | multi-with-glb/src/components/VRScene.tsx:220 | bullet ids fired by this client strictly increase across frames |
| GlbScene.HandMessage | multi-with-glb/src/components/VRScene.tsx:258-275 | each controller's message carries the player position, the camera rotation and that one hand only |
| GlbScene.PositionSends | multi-with-glb/src/components/VRScene.tsx:244-277 | every position send goes to an open connection and carries exactly one hand |
| GlbScene.SendPositions | multi-with-glb/src/components/VRScene.tsx:244-277 | the second loop makes exactly the sends of `PositionSends` |
| GlbScene.IdsOf | multi-with-glb/src/components/VRScene.tsx:220 | the id list of a bullet list, element by element |
| GlbScene.RemoveBullets | multi-with-glb/src/components/VRScene.tsx:280-282 | `handleBulletHit` keeps exactly the bullets with other ids |
| GlbScene.RemoveTargets | multi-with-glb/src/components/VRScene.tsx:286 | the filter keeps exactly the targets with other ids and is the identity when no target has the id |
| GlbScene.SpawnPosition | multi-with-glb/src/components/VRScene.tsx:290-294 | a spawn lies in `[-8, 8)` on x and z at height 1.6 |
| GlbScene.HitTarget | multi-with-glb/src/components/VRScene.tsx:284-299 | after removing the target, a new one with the next id is appended exactly when fewer than two remain; from at most two targets the list ends with one or two |
| GlbScene.HitKeepsTwoTargets | multi-with-glb/src/components/VRScene.tsx:284-299 | two targets with distinct ids below the counter stay two targets with distinct ids below the new counter after any hit |
| GlbScene.Scene.constructor | multi-with-glb/src/components/VRScene.tsx:157-166 | the scene starts with no bullets, no targets, both counters at 0, no trigger values and the mount time |
| GlbScene.Scene.Frame | multi-with-glb/src/components/VRScene.tsx:195-278 | without a player or inside 50 ms nothing happens; otherwise the trigger loop's bullets are appended, and the sends are the shots followed by one position message per controller |
| GlbScene.RunTriggers | multi-with-glb/src/components/VRScene.tsx:202-242 | the loop over the controllers computes exactly `TriggerFold` of the trigger refs and the counter, and collects each fired bullet's shoot messages in firing order |
| GlbScene.Scene.ProcessTriggers | multi-with-glb/src/components/VRScene.tsx:202-242 | the trigger loop updates the values and the counter by `TriggerFold`, appends its bullets and sends each shot to the open connections |
| GlbScene.Scene.HandleBulletHit | multi-with-glb/src/components/VRScene.tsx:280-282 | the bullets become `RemoveBullets` of them; nothing else changes |
| GlbScene.Scene.HandleTargetHit | multi-with-glb/src/components/VRScene.tsx:284-299 | the targets and counter become `HitTarget` of them |
| GlbScene.Scene.ConnectionsEffect | multi-with-glb/src/components/VRScene.tsx:170-193 | as written, two fresh targets replace the list and every current connection gets one more 'data' listener, none is ever removed |
| GlbScene.Scene.ConnectionsEffectWithCleanup | multi-with-glb/src/components/VRScene.tsx:170-193 | corrected, each connection has exactly as many listeners as it appears in the current set |
| GlbScene.Scene.OnRemoteShoot | multi-with-glb/src/components/VRScene.tsx:182-190 | a remote 'shoot' appends the sender's bullet once per listener on that connection |
| GlbScene.ListenersGrowWithRuns | multi-with-glb/src/components/VRScene.tsx:170-193 | as written, a connection present in n runs of the effect carries n listeners |
| GlbScene.DuplicateShotAfterSecondPeer | multi-with-glb/src/components/VRScene.tsx:181-193 | peer a connects, then peer b; one shot from a then appears twice in the bullet list |
| GlbScene.CountConnDistinct | multi-with-glb/src/components/VRScene.tsx:181 | in a set of distinct connections each present connection occurs once, so with the cleanup a remote shot adds one bullet |
| MultiScene.Scene.constructor | project-multi/src/components/VRScene.tsx:70 | the throttle starts at the mount time |
| MultiScene.Scene.Frame | project-multi/src/components/VRScene.tsx:76-129 | without a player or inside 50 ms nothing is sent; otherwise one update with the head pose and every hand goes to each open connection |
| MultiScene.FrameSendsOnePerOpenLink | project-multi/src/components/VRScene.tsx:90-128 | a processed frame sends each open connection exactly one 'position' message, holding exactly the hands present |
| LoadingRoom.LatestRefs | multi-with-glb/src/components/LoadingRoom.tsx:30-32 | the references cover the old hands and every hand present |
| LoadingRoom.LatestRefsLastWins | multi-with-glb/src/components/LoadingRoom.tsx:32 | the reference kept for a hand is the last controller with that handedness |
| LoadingRoom.LatestRefsKeeps | multi-with-glb/src/components/LoadingRoom.tsx:11-32 | a hand absent from this frame keeps its earlier reference |
| LoadingRoom.Room.constructor | multi-with-glb/src/components/LoadingRoom.tsx:10-11 | the lobby starts at the mount time with no references |
| LoadingRoom.Room.Frame | multi-with-glb/src/components/LoadingRoom.tsx:14-72 | without a player or inside 50 ms nothing happens; otherwise the references are refreshed and one update goes to each open connection |
| RemoteUser.Receive | multi-with-glb/src/components/RemoteUser.tsx:156-157 | a message arrives as a 'position' data object exactly when it was sent as a pose update |
| RemoteUser.DecodeControllers | multi-with-glb/src/components/RemoteUser.tsx:163-173 | a missing `controllers` field gives no hands; otherwise the hands are exactly the sent ones and each re-encodes to what was sent |
| RemoteUser.Decode | multi-with-glb/src/components/RemoteUser.tsx:156-176 | only a 'position' message yields a state, whose head pose is the one sent |
| RemoteUser.DecodeRoundTrip | multi-with-glb/src/components/RemoteUser.tsx:156-176 | decoding a pose built by a sender recovers it exactly, every hand included |
| RemoteUser.ControllersFrameKeys | multi-with-glb/src/components/RemoteUser.tsx:204-220 | a loop that does not fail keeps the smoothing slots' keys |
| RemoteUser.LeftRightNeverFail | multi-with-glb/src/components/RemoteUser.tsx:135-148 | with the slots 'left' and 'right', a loop over those hands never fails |
| RemoteUser.NoneHandFails | multi-with-glb/src/components/RemoteUser.tsx:204-214 | as written, a hand 'none' with a mounted right group reaches a missing slot, and the frame fails |
| RemoteUser.ControllerStepFixed | multi-with-glb/src/components/RemoteUser.tsx:204-220 | corrected step: the slot keys stay, and a mounted left hand smooths its slot toward the position relative to the user, landing between both for a factor in [0, 1] |
| RemoteUser.LerpVecBetweenWhen | multi-with-glb/src/components/RemoteUser.tsx:214 | a factor in [0, 1] puts the smoothed controller between its old and its target position |
| RemoteUser.ControllersFrameFixed | multi-with-glb/src/components/RemoteUser.tsx:204-220 | the corrected loop never fails and keeps the slot keys |
| RemoteUser.FixedAgreesOnLeftRight | multi-with-glb/src/components/RemoteUser.tsx:204-220 | as written and corrected agree whenever only 'left' and 'right' occur |
| RemoteUser.Avatar.constructor | multi-with-glb/src/components/RemoteUser.tsx:125-148 | mount: the empty state, the clock at mount time, the two slots at the origin |
| RemoteUser.Avatar.HandleData | multi-with-glb/src/components/RemoteUser.tsx:156-176 | a 'position' message sets the state to its decoding and the clock to now; others change nothing |
| RemoteUser.Avatar.Frame | multi-with-glb/src/components/RemoteUser.tsx:184-221 | unmounted: nothing; silent for more than 5 s: hidden; otherwise shown, moved toward the target by `delta * 15`, and the controllers moved by the loop, a failing loop reported; the display is then whatever the loop left, including the moves of the hands before a failing one |
| RemoteUser.Reached | multi-with-glb/src/components/RemoteUser.tsx:204-219 | the display the controller loop leaves: the loop's result when it does not fail; the slot keys never change |
| RemoteUser.ReachedAtFailure | multi-with-glb/src/components/RemoteUser.tsx:204-219 | when hand `i` throws, the display is exactly what the first `i` hands made of it |
| RemoteUser.ReachedStays | multi-with-glb/src/components/RemoteUser.tsx:204-219 | after a failure, the hands that follow change nothing |
| RemoteUser.FailedStays | multi-with-glb/src/components/RemoteUser.tsx:204 | once the loop has failed on a prefix of the hands, the whole loop fails |
| RemoteUser.LivenessWindow | multi-with-glb/src/components/RemoteUser.tsx:186-191 | an avatar is stale exactly when more than 5000 ms have passed since its last 'position' message |
| RemoteUser.SmoothingStaysBetween | multi-with-glb/src/components/RemoteUser.tsx:196 | the avatar lands between its old and its target position exactly when `delta * 15` lies in [0, 1] |
| RemoteUser.LongFrameOvershoots | multi-with-glb/src/components/RemoteUser.tsx:196 | a 0.1 s frame moves the avatar 1.5 times the distance to its target |
| TVScreen.JsRem | multi-with-glb/src/components/TVScreen.tsx:60-61 | JavaScript's truncating `%`: Euclidean on non-negative operands, non-positive for a negative dividend |
| TVScreen.Navigate | multi-with-glb/src/components/TVScreen.tsx:58-61 | from a valid page the new page is valid, the next page wraps from the last to 0 and the previous from 0 to the last |
| TVScreen.NavigateLaws | multi-with-glb/src/components/TVScreen.tsx:58-61 | next and previous undo each other, and three steps in one direction return to the start |
| TVScreen.NegativePageStaysNegative | multi-with-glb/src/components/TVScreen.tsx:60 | the truncating `%` leaves a negative page negative |
| TVScreen.Screen.constructor | multi-with-glb/src/components/TVScreen.tsx:36-37 | content shown, page 0 |
| TVScreen.Screen.ToggleContent | multi-with-glb/src/components/TVScreen.tsx:44-56 | flips the content flag, keeps the page, and sends the new flag to each open connection |
| TVScreen.Screen.NavigatePage | multi-with-glb/src/components/TVScreen.tsx:58-73 | sets the page to `Navigate` of the old one, keeps the flag, and sends the new page to each open connection |
| Target.With | multi-with-glb/src/components/Target.tsx:37 | setting one axis changes that coordinate only |
| Target.Sign | multi-with-glb/src/components/Target.tsx:37 | `Math.sign`: 1, -1 or 0 by the sign of its argument |
| Target.BounceAxis | multi-with-glb/src/components/Target.tsx:35-38 | within the bound nothing changes; beyond it the coordinate is set to the bound on its own side and the velocity component is reversed; other axes are untouched |
| Target.BounceLaws | multi-with-glb/src/components/Target.tsx:33-39 | after the bounce both horizontal coordinates are within 10, the height and vertical speed stay, and an axis already in bounds is untouched |
| Target.ExplodeStep | multi-with-glb/src/components/Target.tsx:20-26 | progress grows by `2 * delta`, the scale is `1 - progress`, and `onHit` runs exactly when the progress reaches 1 |
| Target.HitRepeats | multi-with-glb/src/components/Target.tsx:23-25 | once the progress is 1, every further frame calls `onHit` again with a scale at or below 0 |
| Target.HitAfterHalfSecond | multi-with-glb/src/components/Target.tsx:21-23 | from the start a single frame reaches a hit exactly when it lasts at least half a second |
| Target.Body.constructor | multi-with-glb/src/components/Target.tsx:12-15 | the target starts at its initial position, not exploding, progress 0, scale 1 and a horizontal velocity |
| Target.Body.Frame | multi-with-glb/src/components/Target.tsx:17-40 | unmounted: nothing; exploding: one `ExplodeStep`; otherwise the position moves by `velocity * delta` and is bounced on x then z, ending with both horizontal coordinates within 10; the vertical velocity stays 0 and the height never changes |
| Target.Body.HandleCollision | multi-with-glb/src/components/Target.tsx:42-46 | the target is exploding afterwards, nothing else changes, and it still moves horizontally only |
| RemoteUser.Avatar.FrameFixed | multi-with-glb/src/components/RemoteUser.tsx:184-221 | corrected frame: never fails, keeps the slot keys, and moves the controllers by `ControllersFrameFixed`, the rest as in `Frame` |

## Left out

- Quaternion arithmetic: `slerp`, Euler to quaternion, `lookAt` and the trigonometry of `updateSphereRotation` and of the gyroscope camera. Quaternions are opaque values and are only copied or compared. The one rotation computed with is the grabber's turn about the vertical axis and its read-back as `rotation.y`.
- The locomotion movement vector: the stick direction, its rotation by the camera and its normalisation. These are floating-point library calls; the model only decides whether the player moves and when a snap turn fires.
- Raycasting and `getIntersections`: the hit object is an input to the controller walk and to the click handlers. Ray intersection in `Bullet.tsx` is not part of this model.
- Model, texture and video loading (`useGLTF`, `useFBX`, `ModelLoader.js`, `LoadingScreen.tsx`): the model only records which loader would be asked for which URL.
- Materials, shaders, lights and JSX trees, including the video shader of `VideoManager.js`: they only describe what is drawn.
- DOM and browser I/O are parameters or left out: element lookups, the file download of `saveVideoPositionsToFile` (its positions map is modelled), `alert`, clipboard and the permission prompt.
- `localStorage` is a map snapshot, and JSON is a parse result that is present or absent. A saved entry with missing or non-numeric fields is not modelled.
- Time and randomness are parameters: `Date.now`, `performance.now`, `Math.random` and `crypto.randomUUID`.
- `parseFloat` and `parseInt` results are `Option<real>`, NaN as `None`. The text-to-number parse itself is not modelled.
- Integer widths are not modelled: integers are unbounded and numbers are exact reals, so IEEE-754 rounding is not modelled. `Math.PI` is the exact decimal of the double nearest to pi.
- React and zustand machinery: render order, batching of state setters, effect scheduling and persistence middleware. Each setter takes effect at once, in the order the handler calls it. The pointer-missed event is taken to arrive as the renderer delivers it.
- The inner persisted store of `project3/src/store.ts`: `useStore` only snapshots its objects at creation and never writes back, so only that snapshot is modelled.
- The gyroscope branch of `project3/src/components/Scene.tsx`: the flag that guards it is never set.
- `isLoaded` and the visibility of the selection box in the old editor: rendering state with no contract.
- Camera `fov`, aspect and projection-matrix updates: the model keeps the field of view as a number and leaves the matrix calls out.
- PeerJS and WebRTC internals: connections are opaque handles with an `open` flag, and events are method calls. Whether `new Peer` throws in `initializePeer` is a parameter, and the `destroy` of the old peer before it is a library call that is left out.
- The reconnect of the `disconnected` event is modelled only as the decision to reconnect; the library call that follows is left out.
- `PCModel` and `Robot` in `multi-with-glb/src/components/VRScene.tsx`: they send 'pc-state' and 'robot-state' messages to the open connections, at most one per 50 ms (a send needs more than 50 ms since the last). Outside the modelled core; `PoseSync` models the same throttle-and-fan-out pattern for poses.
- The ICE server list `PEER_CONFIG`: constants for the networking layer.
- `initializeAudio` (asynchronous `getUserMedia`) and audio playback: the model stores whether a local stream exists.
- The RemoteUser data listener's removal on unmount or peer change: React effect cleanup is not modelled. Which connection the receiver listens on is taken as given.
- VideoManager.Manager.SaveVideoPositions: reads the manager's own plane records. The grabber moves and turns the same three.js objects in place, and that aliasing is not carried over, so the map holds the poses the planes were created with. The grabber's own save to `localStorage` on release is modelled, and `VideoManager.SavedPositionRestored` ties it to the next load.
- VRController.Grabber.TriggerEnd: after a backward-facing turn three.js also writes half turns into `rotation.x` and `rotation.z`. Only `rotation.y` is a field, so that x and z are neither kept nor saved.
- RemoteUser.Avatar.Frame: the head-rotation `slerp` is not modelled, so the rotation shown for the head is not stated.
- Target.Body.constructor: takes the two horizontal velocity components as parameters. The `normalize` and `multiplyScalar(2)` that give them length 2 are not stated.
- `preventPanoramaInteraction` in `project/src/js/ui/UIControls.js` is not part of this model: the method as written is not valid code.
- `SceneSetup.js`, the `App.tsx` files, the A-Frame glue and `config.js` are not part of this model. The constants of `config.js` are copied into the model where they are used.
- ASCII-only lower-casing: `toLowerCase` is modelled on ASCII letters, which is exact for comparisons against the ASCII literals the code uses.

## Findings

| source | as written | input that shows it | evidently intended | confidence | as-written member | corrected member |
|---|---|---|---|---|---|---|
| multi-with-glb/src/components/VRScene.tsx:170-193 | the connections effect adds a 'data' listener to every current connection on each run and never removes one | peer a connects, then peer b connects; a then shoots once | each connection has one listener, so one shot adds one bullet | high, not executed | GlbScene.DuplicateShotAfterSecondPeer, GlbScene.Scene.ConnectionsEffect, GlbScene.ListenersGrowWithRuns | GlbScene.Scene.ConnectionsEffectWithCleanup, GlbScene.CountConnDistinct |
| multi-with-glb/src/components/RemoteUser.tsx:204-214 | the group is chosen by `hand === 'left'`, but the smoothing slot is looked up by the hand name, and only 'left' and 'right' slots exist | a remote controller with handedness 'none' while the right group is mounted: `lerp` is undefined and the frame throws a TypeError | any non-left hand drives the right group through the right slot | medium, not executed | RemoteUser.NoneHandFails, RemoteUser.Avatar.Frame | RemoteUser.Avatar.FrameFixed, RemoteUser.ControllersFrameFixed, RemoteUser.FixedAgreesOnLeftRight |
| project/src/js/controllers/GyroController.js:70-81 | the toggle removes `this.handleDeviceOrientation.bind(this)`, a new function each time, so the listener added earlier is never removed | enable, disable, enable the gyroscope, then one orientation event | one listener after any toggle sequence that ends enabled, so each event is smoothed once | high, not executed | GyroController.DoubleListenerSmoothsTwice, GyroController.Gyro.Toggle, GyroController.ToggleListeners | GyroController.Gyro.ToggleFixed, GyroController.FixedHandlesOnce |
| project/src/js/video/VideoManager.js:125-128 | the video id is drawn from `Math.random` on every load, and the position is looked up under that fresh id | save a plane's position (project/src/js/controllers/VRController.js:103), then load the page again with a different random draw | the id stays the same across loads, so the saved position is restored | high, not executed | VideoManager.SavedPositionLost, VideoManager.Manager.CreateVideoPlane | VideoManager.Manager.CreateVideoPlaneStable, VideoManager.StableId, VideoManager.SavedPositionRestored |
