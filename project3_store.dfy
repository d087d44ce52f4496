/** project3/src/store.ts: the exported `useStore`. Its object actions are the shared ones of
    EditorObjects; it adds the gyroscope flag. */
module Project3Store {
  import opened Common
  import opened EditorObjects

  const DefaultPanorama: string := "https://raw.githubusercontent.com/willy1322/vr-panorama/main/black.png"

  datatype State = State(editor: EditorState, gyroscopeEnabled: bool)

  /** The initial state: the objects come from the snapshot of the inner persisted store
      (whose `selectedObjectId` is never persisted, so it is null), the panorama is the
      default and the gyroscope is off. */
  function Initial(persistedObjects: seq<Object3D>): (r: State)
    ensures r.editor.objects == persistedObjects && r.editor.selectedObjectId == None
    ensures r.editor.panoramaUrl == DefaultPanorama && !r.gyroscopeEnabled
  {
    State(EditorState(persistedObjects, None, DefaultPanorama), false)
  }

  /** `useStore.setState({ gyroscopeEnabled })`: only the flag changes. */
  function SetGyroscopeEnabled(s: State, on: bool): (r: State)
    ensures r.gyroscopeEnabled == on && r.editor == s.editor
  {
    s.(gyroscopeEnabled := on)
  }
}
