/** project3/src/components/UI.tsx: the editor panel. The React state and the store are the
    fields of one object; each handler is a method that updates them in sequence. */
module Project3UI {
  import opened Common
  import opened EditorObjects
  import opened EditorForm
  import Project3Store

  const SamplePanorama: string := "https://raw.githubusercontent.com/willy1322/vr-panorama/main/spaceport5.jpg"

  /** The form the panel starts with and returns to on "clear". */
  const DefaultPosition: Vec3 := Vec3(0.0, 0.0, -5.0)
  const DefaultScale: real := 2.0

  /** What `DeviceOrientationEvent.requestPermission` does on this device: absent, or present
      and resolving to a string (a rejected promise behaves like a refusal). */
  datatype PermissionApi = NoPermissionApi | PermissionAnswer(answer: string)

  /** Whether a request to switch the gyroscope from `enabled` goes through. */
  predicate ToggleAllowed(enabled: bool, api: PermissionApi)
  {
    enabled || api.NoPermissionApi? || api.answer == "granted"
  }

  class ControlPanel {
    var form: Form
    var gyroscopeEnabled: bool
    var store: Project3Store.State

    /** The local flag mirrors the store's flag: both start false and only the toggle
        writes them, always together. */
    predicate Valid()
      reads this
    {
      store.gyroscopeEnabled == gyroscopeEnabled
    }

    constructor (persistedObjects: seq<Object3D>)
      ensures Valid()
      ensures form == Form(DefaultPosition, DefaultScale, 0.0, Cube, "")
      ensures !gyroscopeEnabled && store == Project3Store.Initial(persistedObjects)
    {
      form := Form(DefaultPosition, DefaultScale, 0.0, Cube, "");
      gyroscopeEnabled := false;
      store := Project3Store.Initial(persistedObjects);
    }

    /** `handleAddObject` */
    method HandleAddObject(newId: string)
      requires Valid()
      modifies this
      ensures Valid() && gyroscopeEnabled == old(gyroscopeEnabled)
      ensures DecideAdd(old(form), newId).Rejected? ==> form == old(form) && store == old(store)
      ensures DecideAdd(old(form), newId).LoadPanorama? ==>
        && store.editor == SetPanoramaUrl(old(store.editor), old(form.modelUrl))
        && store.gyroscopeEnabled == old(store.gyroscopeEnabled)
        && form == old(form).(modelUrl := "")
      ensures DecideAdd(old(form), newId).AddNew? ==>
        && store.editor == AddObject(old(store.editor), DecideAdd(old(form), newId).obj)
        && store.gyroscopeEnabled == old(store.gyroscopeEnabled)
        && form == (if CarriesUrl(old(form.objectType)) then old(form).(modelUrl := "") else old(form))
    {
      var outcome := DecideAdd(form, newId);
      match outcome {
        case Rejected =>
        case LoadPanorama(url) =>
          store := store.(editor := SetPanoramaUrl(store.editor, url));
          form := form.(modelUrl := "");
        case AddNew(o) =>
          store := store.(editor := AddObject(store.editor, o));
          if CarriesUrl(form.objectType) {
            form := form.(modelUrl := "");
          }
      }
    }

    /** `handlePositionChange`, called with `parseFloat(input) || 0`. */
    method HandlePositionChange(axis: Axis, parsed: Option<real>)
      requires Valid()
      modifies this
      ensures Valid() && gyroscopeEnabled == old(gyroscopeEnabled)
      ensures form == old(form).(position := WithAxis(old(form.position), axis, NumberOr(parsed, 0.0)))
      ensures store.gyroscopeEnabled == old(store.gyroscopeEnabled)
      ensures Truthy(old(store.editor.selectedObjectId)) ==>
        store.editor == UpdateObject(old(store.editor), old(store.editor.selectedObjectId).value,
                                     ObjectUpdates(Some(form.position), None, None, None))
      ensures !Truthy(old(store.editor.selectedObjectId)) ==> store == old(store)
    {
      var newPosition := WithAxis(form.position, axis, NumberOr(parsed, 0.0));
      form := form.(position := newPosition);
      if Truthy(store.editor.selectedObjectId) {
        store := store.(editor := UpdateObject(store.editor, store.editor.selectedObjectId.value,
                                               ObjectUpdates(Some(newPosition), None, None, None)));
      }
    }

    /** `handleScaleChange`; `value` is the slider's `parseFloat` result. */
    method HandleScaleChange(value: real)
      requires Valid()
      modifies this
      ensures Valid() && gyroscopeEnabled == old(gyroscopeEnabled)
      ensures form == old(form).(scale := value)
      ensures store.gyroscopeEnabled == old(store.gyroscopeEnabled)
      ensures Truthy(old(store.editor.selectedObjectId)) ==>
        store.editor == UpdateObject(old(store.editor), old(store.editor.selectedObjectId).value,
                                     ObjectUpdates(None, None, Some(value), None))
      ensures !Truthy(old(store.editor.selectedObjectId)) ==> store == old(store)
    {
      form := form.(scale := value);
      if Truthy(store.editor.selectedObjectId) {
        store := store.(editor := UpdateObject(store.editor, store.editor.selectedObjectId.value,
                                               ObjectUpdates(None, None, Some(value), None)));
      }
    }

    /** `handleRotationChange`; `value` is the slider's `parseInt` result. */
    method HandleRotationChange(value: int)
      requires Valid()
      modifies this
      ensures Valid() && gyroscopeEnabled == old(gyroscopeEnabled)
      ensures form == old(form).(rotation := value as real)
      ensures store.gyroscopeEnabled == old(store.gyroscopeEnabled)
      ensures Truthy(old(store.editor.selectedObjectId)) ==>
        store.editor == UpdateObject(old(store.editor), old(store.editor.selectedObjectId).value,
                                     ObjectUpdates(None, Some(value as real), None, None))
      ensures !Truthy(old(store.editor.selectedObjectId)) ==> store == old(store)
    {
      form := form.(rotation := value as real);
      if Truthy(store.editor.selectedObjectId) {
        store := store.(editor := UpdateObject(store.editor, store.editor.selectedObjectId.value,
                                               ObjectUpdates(None, Some(value as real), None, None)));
      }
    }

    /** `handleClearObjects`: clear the store and put the transform back to its defaults. */
    method HandleClearObjects()
      requires Valid()
      modifies this
      ensures Valid() && gyroscopeEnabled == old(gyroscopeEnabled)
      ensures store.editor == ClearObjects(old(store.editor))
      ensures store.gyroscopeEnabled == old(store.gyroscopeEnabled)
      ensures form == old(form).(position := DefaultPosition, scale := DefaultScale, rotation := 0.0)
    {
      store := store.(editor := ClearObjects(store.editor));
      form := form.(position := DefaultPosition, scale := DefaultScale, rotation := 0.0);
    }

    /** `handleLoadSamplePanorama` */
    method HandleLoadSamplePanorama()
      requires Valid()
      modifies this
      ensures Valid() && gyroscopeEnabled == old(gyroscopeEnabled) && form == old(form)
      ensures store == old(store).(editor := SetPanoramaUrl(old(store.editor), SamplePanorama))
    {
      store := store.(editor := SetPanoramaUrl(store.editor, SamplePanorama));
    }

    /** `toggleGyroscope`: a refused permission throws before either flag is written. */
    method ToggleGyroscope(api: PermissionApi)
      requires Valid()
      modifies this
      ensures Valid() && form == old(form) && store.editor == old(store.editor)
      ensures ToggleAllowed(old(gyroscopeEnabled), api) ==> gyroscopeEnabled == !old(gyroscopeEnabled)
      ensures !ToggleAllowed(old(gyroscopeEnabled), api) ==> gyroscopeEnabled == old(gyroscopeEnabled)
    {
      if !gyroscopeEnabled && api.PermissionAnswer? && api.answer != "granted" {
        return;
      }
      var next := !gyroscopeEnabled;
      gyroscopeEnabled := next;
      store := Project3Store.SetGyroscopeEnabled(store, next);
    }

    /** The `useEffect` on `[selectedObjectId, objects]`. */
    method SyncSelection()
      requires Valid()
      modifies this
      ensures Valid() && gyroscopeEnabled == old(gyroscopeEnabled) && store == old(store)
      ensures form == SyncFromSelection(old(form), store.editor.objects, store.editor.selectedObjectId)
    {
      form := SyncFromSelection(form, store.editor.objects, store.editor.selectedObjectId);
    }
  }

  /** Once the gyroscope is on, switching it off never needs a permission; switching it on
      needs one only where the API exists, and then only 'granted' passes. */
  lemma ToggleRules(api: PermissionApi)
    ensures ToggleAllowed(true, api)
    ensures ToggleAllowed(false, api) <==> (api.NoPermissionApi? || api.answer == "granted")
  {
  }
}
