/** project-old/src/store.ts: the editor store without persistence. */
module OldStore {
  import opened Common
  import opened EditorObjects

  const DefaultPanorama: string :=
    "https://images.unsplash.com/photo-1536152470836-b943b246224c?auto=format&fit=crop&w=2048&q=80"

  /** The state `create` starts from. Its actions are the shared ones of EditorObjects. */
  const Initial: EditorState := EmptyEditor(DefaultPanorama)

  /** From the initial state, adding an object makes it the selected one and the one that
      `find` returns for the selection. */
  lemma AddToFreshStore(o: Object3D)
    ensures var r := AddObject(Initial, o);
      r.selectedObjectId == Some(o.id) && FindById(r.objects, o.id) == Some(o)
  {
    FindByIdFirst([o], o.id, 0);
  }
}
