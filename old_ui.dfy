/** project-old/src/components/UI.tsx: the first editor panel. Unlike project3 it keeps the
    URL after adding a model, and its "clear" button clears the store only. */
module OldUI {
  import opened Common
  import opened EditorObjects
  import opened EditorForm
  import OldStore

  const DefaultPosition: Vec3 := Vec3(0.0, 0.0, -3.0)
  const DefaultScale: real := 1.0

  class ControlPanel {
    var form: Form
    var store: EditorState

    constructor ()
      ensures form == Form(DefaultPosition, DefaultScale, 0.0, Cube, "")
      ensures store == OldStore.Initial
    {
      form := Form(DefaultPosition, DefaultScale, 0.0, Cube, "");
      store := OldStore.Initial;
    }

    /** `handleAddObject`: the URL field is cleared only after loading a panorama. */
    method HandleAddObject(newId: string)
      modifies this
      ensures DecideAdd(old(form), newId).Rejected? ==> form == old(form) && store == old(store)
      ensures DecideAdd(old(form), newId).LoadPanorama? ==>
        store == SetPanoramaUrl(old(store), old(form.modelUrl)) && form == old(form).(modelUrl := "")
      ensures DecideAdd(old(form), newId).AddNew? ==>
        store == AddObject(old(store), DecideAdd(old(form), newId).obj) && form == old(form)
    {
      match DecideAdd(form, newId) {
        case Rejected =>
        case LoadPanorama(url) =>
          store := SetPanoramaUrl(store, url);
          form := form.(modelUrl := "");
        case AddNew(o) =>
          store := AddObject(store, o);
      }
    }

    /** `handlePositionChange`, called with `parseFloat(input) || 0`. */
    method HandlePositionChange(axis: Axis, parsed: Option<real>)
      modifies this
      ensures form == old(form).(position := WithAxis(old(form.position), axis, NumberOr(parsed, 0.0)))
      ensures Truthy(old(store.selectedObjectId)) ==>
        store == UpdateObject(old(store), old(store.selectedObjectId).value,
                              ObjectUpdates(Some(form.position), None, None, None))
      ensures !Truthy(old(store.selectedObjectId)) ==> store == old(store)
    {
      var newPosition := WithAxis(form.position, axis, NumberOr(parsed, 0.0));
      form := form.(position := newPosition);
      if Truthy(store.selectedObjectId) {
        store := UpdateObject(store, store.selectedObjectId.value,
                              ObjectUpdates(Some(newPosition), None, None, None));
      }
    }

    /** `handleScaleChange` */
    method HandleScaleChange(value: real)
      modifies this
      ensures form == old(form).(scale := value)
      ensures Truthy(old(store.selectedObjectId)) ==>
        store == UpdateObject(old(store), old(store.selectedObjectId).value, ObjectUpdates(None, None, Some(value), None))
      ensures !Truthy(old(store.selectedObjectId)) ==> store == old(store)
    {
      form := form.(scale := value);
      if Truthy(store.selectedObjectId) {
        store := UpdateObject(store, store.selectedObjectId.value, ObjectUpdates(None, None, Some(value), None));
      }
    }

    /** `handleRotationChange`, called with `parseInt(input)`. */
    method HandleRotationChange(value: int)
      modifies this
      ensures form == old(form).(rotation := value as real)
      ensures Truthy(old(store.selectedObjectId)) ==>
        store == UpdateObject(old(store), old(store.selectedObjectId).value,
                              ObjectUpdates(None, Some(value as real), None, None))
      ensures !Truthy(old(store.selectedObjectId)) ==> store == old(store)
    {
      form := form.(rotation := value as real);
      if Truthy(store.selectedObjectId) {
        store := UpdateObject(store, store.selectedObjectId.value,
                              ObjectUpdates(None, Some(value as real), None, None));
      }
    }

    /** The "Clear All Objects" button calls the store's `clearObjects` directly: the form
        keeps its transform. */
    method ClearAllObjects()
      modifies this
      ensures store == ClearObjects(old(store)) && form == old(form)
    {
      store := ClearObjects(store);
    }

    /** The `useEffect` on `[selectedObjectId, objects]`. */
    method SyncSelection()
      modifies this
      ensures store == old(store)
      ensures form == SyncFromSelection(old(form), store.objects, store.selectedObjectId)
    {
      form := SyncFromSelection(form, store.objects, store.selectedObjectId);
    }
  }

  /** Because the URL is kept, pressing "add" twice on a model form adds two objects with the
      same URL and the same transform, differing only in their ids. */
  lemma RepeatedModelAdd(f: Form, id1: string, id2: string)
    requires CarriesUrl(f.objectType) && f.modelUrl != ""
    ensures DecideAdd(f, id1).AddNew? && DecideAdd(f, id2).AddNew?
    ensures DecideAdd(f, id2).obj == DecideAdd(f, id1).obj.(id := id2)
  {
  }
}
