/** A scene object binds one shape and one surface, each named by a type tag
    and an index into the registry array of that type. It owns neither. */
module SceneObjects {
  datatype SceneObject = SceneObject(
    visible: bool,
    shapeType: int,    // a shape type tag, e.g. the rectangle tag
    shapeIndex: int,   // e.g. the second rectangle in the rectangle array
    surfaceType: int,  // a surface type tag, e.g. the colour tag
    surfaceIndex: int  // e.g. the third colour surface in its array
  )

  /** The record that fills unused scene-object slots. */
  const Default := New(false, 0, 0, 0, 0)

  /** The constructor: it accepts any integers as tags and indices and stores
      every argument unchanged. */
  function New(visible: bool, shapeType: int, shapeIndex: int, surfaceType: int, surfaceIndex: int): (o: SceneObject)
    ensures o.visible == visible
    ensures o.shapeType == shapeType && o.shapeIndex == shapeIndex
    ensures o.surfaceType == surfaceType && o.surfaceIndex == surfaceIndex
  {
    SceneObject(visible, shapeType, shapeIndex, surfaceType, surfaceIndex)
  }

  /** The default scene object is invisible and refers to the first slot of
      tag 0 for both its shape and its surface. */
  lemma DefaultIsInvisibleFirstSlot()
    ensures !Default.visible
    ensures Default.shapeType == 0 && Default.shapeIndex == 0
    ensures Default.surfaceType == 0 && Default.surfaceIndex == 0
  {
  }
}
