/** Clients of the registry: the scene the application builds at start-up,
    its in-place updates when the user moves a mirror, and two short runs
    that show the registry's edge behaviour. */
module SceneSetup {
  import opened Wrappers
  import opened Vectors
  import opened Constants
  import opened SceneObjects
  import opened Shapes
  import opened Surfaces
  import opened SlotArrays
  import opened Scene

  /** Builds the start-up scene: one perfect mirror surface, four mirror
      rectangles each bound to it, and a red sphere. The rectangle and sphere
      records are parameters because their construction is floating-point
      geometry outside this model. Every registration succeeds, the indices
      come out in call order, and the scene objects hold exactly the
      bindings made. */
  method InitRaytracingScene(r1: RectangleShape, r2: RectangleShape, r3: RectangleShape, r4: RectangleShape,
                             sphere: SphereShape)
    returns (scene: RaytracingScene, mirrorSurfaceIndex: nat,
             mirror1Index: nat, mirror2Index: nat, mirror3Index: nat, mirror4Index: nat, sphereIndex: nat)
    ensures fresh(scene) && scene.Valid()
    ensures (mirrorSurfaceIndex, mirror1Index, mirror2Index, mirror3Index, mirror4Index, sphereIndex) == (0, 0, 1, 2, 3, 4)
    ensures scene.sceneObjects.count == 5 && scene.rectangleShapes.count == 4 && scene.sphereShapes.count == 1
    ensures scene.cylinderMantleShapes.count == 0 && scene.colourSurfaces.count == 1
    ensures scene.mirrorSurfaces.count == 1
    ensures scene.thinFocussingSurfaces.count == 0 && scene.checkerboardSurfaces.count == 0
    ensures Contents(scene.sceneObjects.View()) == StartUpObjects()
    ensures Contents(scene.rectangleShapes.View()) == [r1, r2, r3, r4]
    ensures Contents(scene.sphereShapes.View()) == [sphere]
    ensures Contents(scene.colourSurfaces.View()) == [RedSurface]
    ensures Contents(scene.mirrorSurfaces.View()) == [PerfectMirrorSurface]
  {
    scene := new RaytracingScene();
    mirrorSurfaceIndex, mirror1Index, mirror2Index, mirror3Index, mirror4Index, sphereIndex :=
      PopulateScene(scene, r1, r2, r3, r4, sphere);
  }

  /** The registrations of the start-up scene, in the application's order,
      made on an empty registry. The records each add stores are listed one
      add at a time. */
  method PopulateScene(scene: RaytracingScene, r1: RectangleShape, r2: RectangleShape, r3: RectangleShape,
                       r4: RectangleShape, sphere: SphereShape)
    returns (mirrorSurfaceIndex: nat, mirror1Index: nat, mirror2Index: nat, mirror3Index: nat, mirror4Index: nat,
             sphereIndex: nat)
    requires scene.Valid()
    requires scene.sceneObjects.count == 0 && scene.rectangleShapes.count == 0 && scene.sphereShapes.count == 0
    requires scene.colourSurfaces.count == 0 && scene.mirrorSurfaces.count == 0
    modifies scene.sceneObjects, scene.sceneObjects.arr, scene.rectangleShapes, scene.rectangleShapes.arr
    modifies scene.sphereShapes, scene.sphereShapes.arr, scene.colourSurfaces, scene.colourSurfaces.arr
    modifies scene.mirrorSurfaces, scene.mirrorSurfaces.arr
    ensures scene.Valid()
    ensures (mirrorSurfaceIndex, mirror1Index, mirror2Index, mirror3Index, mirror4Index, sphereIndex) == (0, 0, 1, 2, 3, 4)
    ensures scene.sceneObjects.count == 5 && scene.rectangleShapes.count == 4 && scene.sphereShapes.count == 1
    ensures scene.colourSurfaces.count == 1 && scene.mirrorSurfaces.count == 1
    ensures Contents(scene.sceneObjects.View()) == StartUpObjects()
    ensures Contents(scene.rectangleShapes.View()) == [r1, r2, r3, r4]
    ensures Contents(scene.sphereShapes.View()) == [sphere]
    ensures Contents(scene.colourSurfaces.View()) == [RedSurface]
    ensures Contents(scene.mirrorSurfaces.View()) == [PerfectMirrorSurface]
  {
    EmptyContents(scene.sphereShapes.View());
    EmptyContents(scene.colourSurfaces.View());
    EmptyContents(scene.mirrorSurfaces.View());
    var m := scene.AddMirrorSurface(PerfectMirrorSurface);
    mirrorSurfaceIndex := m.value;
    mirror1Index, mirror2Index, mirror3Index, mirror4Index := AddMirrors(scene, r1, r2, r3, r4, mirrorSurfaceIndex);
    sphereIndex := AddSphere(scene, sphere, RedSurface);
    StartUpOrder(r1, r2, r3, r4);
    Appended(sphere);
    Appended(RedSurface);
    Appended(PerfectMirrorSurface);
  }

  /** The four mirrors of the start-up scene, registered one after the
      other on the same mirror surface. */
  method AddMirrors(scene: RaytracingScene, r1: RectangleShape, r2: RectangleShape, r3: RectangleShape,
                    r4: RectangleShape, mirrorSurfaceIndex: nat)
    returns (mirror1Index: nat, mirror2Index: nat, mirror3Index: nat, mirror4Index: nat)
    requires scene.Valid()
    requires scene.sceneObjects.count + 4 <= MaxSceneObjects && scene.rectangleShapes.count + 4 <= MaxRectangleShapes
    modifies scene.sceneObjects, scene.sceneObjects.arr, scene.rectangleShapes, scene.rectangleShapes.arr
    ensures scene.Valid()
    ensures var n := old(scene.sceneObjects.count);
      (mirror1Index, mirror2Index, mirror3Index, mirror4Index) == (n, n + 1, n + 2, n + 3)
    ensures scene.sceneObjects.count == old(scene.sceneObjects.count) + 4
    ensures scene.rectangleShapes.count == old(scene.rectangleShapes.count) + 4
    ensures var k := old(scene.rectangleShapes.count);
      Contents(scene.sceneObjects.View()) == old(Contents(scene.sceneObjects.View()))
        + [New(true, RectangleShapeTag, k, MirrorSurfaceTag, mirrorSurfaceIndex)]
        + [New(true, RectangleShapeTag, k + 1, MirrorSurfaceTag, mirrorSurfaceIndex)]
        + [New(true, RectangleShapeTag, k + 2, MirrorSurfaceTag, mirrorSurfaceIndex)]
        + [New(true, RectangleShapeTag, k + 3, MirrorSurfaceTag, mirrorSurfaceIndex)]
    ensures Contents(scene.rectangleShapes.View()) == old(Contents(scene.rectangleShapes.View())) + [r1] + [r2] + [r3] + [r4]
  {
    mirror1Index, mirror2Index := AddMirrorPair(scene, r1, r2, mirrorSurfaceIndex);
    mirror3Index, mirror4Index := AddMirrorPair(scene, r3, r4, mirrorSurfaceIndex);
  }

  /** Two consecutive mirrors on the same mirror surface. */
  method AddMirrorPair(scene: RaytracingScene, r1: RectangleShape, r2: RectangleShape, mirrorSurfaceIndex: nat)
    returns (mirror1Index: nat, mirror2Index: nat)
    requires scene.Valid()
    requires scene.sceneObjects.count + 2 <= MaxSceneObjects && scene.rectangleShapes.count + 2 <= MaxRectangleShapes
    modifies scene.sceneObjects, scene.sceneObjects.arr, scene.rectangleShapes, scene.rectangleShapes.arr
    ensures scene.Valid()
    ensures (mirror1Index, mirror2Index) == (old(scene.sceneObjects.count), old(scene.sceneObjects.count) + 1)
    ensures scene.sceneObjects.count == old(scene.sceneObjects.count) + 2
    ensures scene.rectangleShapes.count == old(scene.rectangleShapes.count) + 2
    ensures var k := old(scene.rectangleShapes.count);
      Contents(scene.sceneObjects.View()) == old(Contents(scene.sceneObjects.View()))
        + [New(true, RectangleShapeTag, k, MirrorSurfaceTag, mirrorSurfaceIndex)]
        + [New(true, RectangleShapeTag, k + 1, MirrorSurfaceTag, mirrorSurfaceIndex)]
    ensures Contents(scene.rectangleShapes.View()) == old(Contents(scene.rectangleShapes.View())) + [r1] + [r2]
  {
    mirror1Index := AddMirror(scene, r1, mirrorSurfaceIndex);
    mirror2Index := AddMirror(scene, r2, mirrorSurfaceIndex);
  }

  /** The scene objects of the start-up scene, in registration order: four
      visible rectangles on mirror surface 0, then a visible sphere on
      colour surface 0. */
  function StartUpObjects(): seq<SceneObject>
  {
    [New(true, RectangleShapeTag, 0, MirrorSurfaceTag, 0),
     New(true, RectangleShapeTag, 1, MirrorSurfaceTag, 0),
     New(true, RectangleShapeTag, 2, MirrorSurfaceTag, 0),
     New(true, RectangleShapeTag, 3, MirrorSurfaceTag, 0),
     New(true, SphereShapeTag, 0, ColourSurfaceTag, 0)]
  }

  /** Each scene object of the start-up scene resolves against the counters
      the start-up scene leaves: the registry never checks this, the
      application's call order guarantees it. */
  lemma StartUpObjectsResolve(s: SceneSnapshot)
    requires s.rectangleShapes.count == 4 && s.sphereShapes.count == 1
    requires s.colourSurfaces.count == 1 && s.mirrorSurfaces.count == 1
    ensures forall i :: 0 <= i < |StartUpObjects()| ==> Resolves(s, StartUpObjects()[i])
  {
  }

  /** Appending the start-up records one add at a time, from nothing, yields
      them in registration order. */
  lemma StartUpOrder(r1: RectangleShape, r2: RectangleShape, r3: RectangleShape, r4: RectangleShape)
    ensures [] + [StartUpObjects()[0]] + [StartUpObjects()[1]] + [StartUpObjects()[2]] + [StartUpObjects()[3]]
              + [StartUpObjects()[4]] == StartUpObjects()
    ensures [] + [r1] + [r2] + [r3] + [r4] == [r1, r2, r3, r4]
  {
  }

  /** One add from nothing yields just that record. */
  lemma Appended<T>(a: T)
    ensures [] + [a] == [a]
  {
  }

  /** Two adds from nothing yield both records, in call order. */
  lemma AppendedInOrder<T>(a: T, b: T)
    ensures [] + [a] + [b] == [a, b]
  {
  }

  /** One mirror of the start-up scene: a rectangle is registered and bound,
      visible, to an already registered mirror surface. */
  method AddMirror(scene: RaytracingScene, r: RectangleShape, mirrorSurfaceIndex: nat) returns (mirrorIndex: nat)
    requires scene.Valid()
    requires scene.sceneObjects.count < MaxSceneObjects && scene.rectangleShapes.count < MaxRectangleShapes
    modifies scene.sceneObjects, scene.sceneObjects.arr, scene.rectangleShapes, scene.rectangleShapes.arr
    ensures scene.Valid()
    ensures mirrorIndex == old(scene.sceneObjects.count)
    ensures scene.sceneObjects.count == old(scene.sceneObjects.count) + 1
    ensures scene.rectangleShapes.count == old(scene.rectangleShapes.count) + 1
    ensures Contents(scene.sceneObjects.View()) == old(Contents(scene.sceneObjects.View()))
              + [New(true, RectangleShapeTag, old(scene.rectangleShapes.count), MirrorSurfaceTag, mirrorSurfaceIndex)]
    ensures Contents(scene.rectangleShapes.View()) == old(Contents(scene.rectangleShapes.View())) + [r]
  {
    var k := scene.AddRectangleShape(r);
    var o := scene.AddSceneObject(New(true, RectangleShapeTag, k.value, MirrorSurfaceTag, mirrorSurfaceIndex));
    mirrorIndex := o.value;
  }

  /** The sphere of the start-up scene: a sphere and a colour surface are
      registered, in that order, and bound, visible, to each other. */
  method AddSphere(scene: RaytracingScene, sphere: SphereShape, colour: ColourSurface) returns (sphereIndex: nat)
    requires scene.Valid()
    requires scene.sceneObjects.count < MaxSceneObjects && scene.sphereShapes.count < MaxSphereShapes
    requires scene.colourSurfaces.count < MaxColourSurfaces
    modifies scene.sceneObjects, scene.sceneObjects.arr, scene.sphereShapes, scene.sphereShapes.arr
    modifies scene.colourSurfaces, scene.colourSurfaces.arr
    ensures scene.Valid()
    ensures sphereIndex == old(scene.sceneObjects.count)
    ensures scene.sceneObjects.count == old(scene.sceneObjects.count) + 1
    ensures scene.sphereShapes.count == old(scene.sphereShapes.count) + 1
    ensures scene.colourSurfaces.count == old(scene.colourSurfaces.count) + 1
    ensures Contents(scene.sceneObjects.View()) == old(Contents(scene.sceneObjects.View()))
              + [New(true, SphereShapeTag, old(scene.sphereShapes.count), ColourSurfaceTag, old(scene.colourSurfaces.count))]
    ensures Contents(scene.sphereShapes.View()) == old(Contents(scene.sphereShapes.View())) + [sphere]
    ensures Contents(scene.colourSurfaces.View()) == old(Contents(scene.colourSurfaces.View())) + [colour]
  {
    var k := scene.AddSphereShape(sphere);
    var c := scene.AddColourSurface(colour);
    var o := scene.AddSceneObject(New(true, SphereShapeTag, k.value, ColourSurfaceTag, c.value));
    sphereIndex := o.value;
  }

  /** Moves the mirror that scene object `mirrorIndex` shows: the rectangle
      it refers to is replaced wholesale by `r`. Nothing else changes, and in
      particular no counter. */
  method MoveMirror(scene: RaytracingScene, mirrorIndex: nat, r: RectangleShape)
    requires scene.Valid()
    requires mirrorIndex < scene.sceneObjects.count
    requires scene.sceneObjects.arr[mirrorIndex].shapeType == RectangleShapeTag
    requires Resolves(scene.Snapshot(), scene.sceneObjects.arr[mirrorIndex])
    modifies scene.rectangleShapes.arr
    ensures scene.Valid()
    ensures scene.Snapshot() == old(scene.Snapshot()).(rectangleShapes :=
              Replaced(old(scene.Snapshot()).rectangleShapes, old(scene.sceneObjects.arr[mirrorIndex].shapeIndex), r))
  {
    scene.ReplaceRectangleShape(scene.sceneObjects.arr[mirrorIndex].shapeIndex, r);
  }

  /** A binding that resolves still resolves after another scene object is
      registered, whatever that object refers to: an add never lowers a
      counter. */
  method AddKeepsBinding(scene: RaytracingScene, o: SceneObject, p: SceneObject) returns (r: Option<nat>)
    requires scene.Valid() && Resolves(scene.Snapshot(), o)
    modifies scene.sceneObjects, scene.sceneObjects.arr
    ensures scene.Valid() && Resolves(scene.Snapshot(), o)
  {
    ghost var before := scene.Snapshot();
    r := scene.AddSceneObject(p);
    ResolvesStable(before, scene.Snapshot(), o);
  }

  /** The registry does not check a binding: a scene object naming a
      rectangle that was never registered is accepted like any other. */
  method UncheckedBinding() returns (r: Option<nat>, resolves: bool)
    ensures r == Some(0)
    ensures !resolves
  {
    var scene := new RaytracingScene();
    var o := New(true, RectangleShapeTag, 3, ColourSurfaceTag, 0);
    r := scene.AddSceneObject(o);
    resolves := Resolves(scene.Snapshot(), o);
  }

  /** The checkerboard array holds two records: a third add is refused,
      and refused again, without touching the registry. */
  method CheckerboardOverflow(a: CheckerboardSurface, b: CheckerboardSurface, c: CheckerboardSurface)
    returns (ra: Option<nat>, rb: Option<nat>, rc: Option<nat>, rd: Option<nat>, stored: seq<CheckerboardSurface>)
    ensures ra == Some(0) && rb == Some(1) && rc == None && rd == None
    ensures stored == [a, b]
  {
    var scene;
    scene, ra, rb := TwoCheckerboards(a, b);
    rc, rd := AddToFullCheckerboards(scene, c);
    stored := Contents(scene.checkerboardSurfaces.View());
  }

  /** A new registry with two checkerboard surfaces, which fill the array. */
  method TwoCheckerboards(a: CheckerboardSurface, b: CheckerboardSurface)
    returns (scene: RaytracingScene, ra: Option<nat>, rb: Option<nat>)
    ensures fresh(scene) && fresh(scene.checkerboardSurfaces) && fresh(scene.checkerboardSurfaces.arr)
    ensures scene.Valid()
    ensures ra == Some(0) && rb == Some(1)
    ensures scene.checkerboardSurfaces.count == MaxCheckerboardSurfaces
    ensures Contents(scene.checkerboardSurfaces.View()) == [a, b]
  {
    scene := new RaytracingScene();
    EmptyContents(scene.checkerboardSurfaces.View());
    ra := scene.AddCheckerboardSurface(a);
    rb := scene.AddCheckerboardSurface(b);
    AppendedInOrder(a, b);
  }

  /** Two more checkerboard adds on a full checkerboard array: both are
      refused and the array keeps what it held. */
  method AddToFullCheckerboards(scene: RaytracingScene, c: CheckerboardSurface) returns (rc: Option<nat>, rd: Option<nat>)
    requires scene.Valid() && scene.checkerboardSurfaces.count == MaxCheckerboardSurfaces
    modifies scene.checkerboardSurfaces, scene.checkerboardSurfaces.arr
    ensures scene.Valid()
    ensures rc == None && rd == None
    ensures scene.checkerboardSurfaces.View() == old(scene.checkerboardSurfaces.View())
  {
    rc := scene.AddCheckerboardSurface(c);
    rd := scene.AddCheckerboardSurface(c);
  }
}
