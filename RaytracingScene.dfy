/** The scene registry: one slot array of scene objects, one per shape kind
    and one per surface kind, each with its own capacity constant and fill
    record, and a snapshot of all eight counters and arrays, of which the
    shading kernel receives the arrays and the scene-object counter. */
module Scene {
  import opened Wrappers
  import opened Vectors
  import opened Constants
  import opened SceneObjects
  import opened Shapes
  import opened Surfaces
  import opened SlotArrays

  /** The registry's eight counters and arrays at one moment. The shading
      kernel receives the eight arrays and the scene-object counter. */
  datatype SceneSnapshot = SceneSnapshot(
    sceneObjects: SlotView<SceneObject>,
    rectangleShapes: SlotView<RectangleShape>,
    sphereShapes: SlotView<SphereShape>,
    cylinderMantleShapes: SlotView<CylinderMantleShape>,
    colourSurfaces: SlotView<ColourSurface>,
    mirrorSurfaces: SlotView<MirrorSurface>,
    thinFocussingSurfaces: SlotView<ThinFocussingSurface>,
    checkerboardSurfaces: SlotView<CheckerboardSurface>)

  /** Every counter lies between 0 and its capacity constant, every array has
      exactly that constant as length, and every unused slot still holds its
      kind's fill record. */
  ghost predicate SnapshotValid(s: SceneSnapshot)
  {
    && WellFormed(s.sceneObjects) && |s.sceneObjects.items| == MaxSceneObjects
    && TailIs(s.sceneObjects, SceneObjects.Default)
    && WellFormed(s.rectangleShapes) && |s.rectangleShapes.items| == MaxRectangleShapes
    && TailIs(s.rectangleShapes, ZRectangleShape)
    && WellFormed(s.sphereShapes) && |s.sphereShapes.items| == MaxSphereShapes
    && TailIs(s.sphereShapes, UnitSphereShape)
    && WellFormed(s.cylinderMantleShapes) && |s.cylinderMantleShapes.items| == MaxCylinderMantleShapes
    && TailIs(s.cylinderMantleShapes, XCylinderMantleShape)
    && WellFormed(s.colourSurfaces) && |s.colourSurfaces.items| == MaxColourSurfaces
    && TailIs(s.colourSurfaces, WhiteSurface)
    && WellFormed(s.mirrorSurfaces) && |s.mirrorSurfaces.items| == MaxMirrorSurfaces
    && TailIs(s.mirrorSurfaces, PerfectMirrorSurface)
    && WellFormed(s.thinFocussingSurfaces) && |s.thinFocussingSurfaces.items| == MaxThinFocussingSurfaces
    && TailIs(s.thinFocussingSurfaces, IdealThinLensSurface)
    && WellFormed(s.checkerboardSurfaces) && |s.checkerboardSurfaces.items| == MaxCheckerboardSurfaces
    && TailIs(s.checkerboardSurfaces, BlackWhiteCheckers)
  }

  /** The registry as constructed: every array full of its fill record and
      every counter at 0. */
  function InitialSnapshot(): (s: SceneSnapshot)
    ensures SnapshotValid(s)
    ensures s.sceneObjects.count == 0 && s.rectangleShapes.count == 0
    ensures s.sphereShapes.count == 0 && s.cylinderMantleShapes.count == 0
    ensures s.colourSurfaces.count == 0 && s.mirrorSurfaces.count == 0
    ensures s.thinFocussingSurfaces.count == 0 && s.checkerboardSurfaces.count == 0
  {
    SceneSnapshot(
      Fresh(MaxSceneObjects, SceneObjects.Default),
      Fresh(MaxRectangleShapes, ZRectangleShape),
      Fresh(MaxSphereShapes, UnitSphereShape),
      Fresh(MaxCylinderMantleShapes, XCylinderMantleShape),
      Fresh(MaxColourSurfaces, WhiteSurface),
      Fresh(MaxMirrorSurfaces, PerfectMirrorSurface),
      Fresh(MaxThinFocussingSurfaces, IdealThinLensSurface),
      Fresh(MaxCheckerboardSurfaces, BlackWhiteCheckers))
  }

  /** A valid snapshot whose counters are all 0 is the initial one: nothing
      but the counters tells a fresh registry from the fill records. */
  lemma InitialSnapshotUnique(s: SceneSnapshot)
    requires SnapshotValid(s)
    requires s.sceneObjects.count == 0 && s.rectangleShapes.count == 0
    requires s.sphereShapes.count == 0 && s.cylinderMantleShapes.count == 0
    requires s.colourSurfaces.count == 0 && s.mirrorSurfaces.count == 0
    requires s.thinFocussingSurfaces.count == 0 && s.checkerboardSurfaces.count == 0
    ensures s == InitialSnapshot()
  {
  }

  /** The counter of the shape array that a shape kind selects. */
  function ShapeCount(s: SceneSnapshot, k: ShapeKind): nat
  {
    match k
    case Rectangle => s.rectangleShapes.count
    case Sphere => s.sphereShapes.count
    case CylinderMantle => s.cylinderMantleShapes.count
  }

  /** The counter of the surface array that a surface kind selects. */
  function SurfaceCount(s: SceneSnapshot, k: SurfaceKind): nat
  {
    match k
    case Colour => s.colourSurfaces.count
    case Mirror => s.mirrorSurfaces.count
    case ThinFocussing => s.thinFocussingSurfaces.count
    case Checkerboard => s.checkerboardSurfaces.count
  }

  /** A scene object's references land on registered records: each tag names
      a kind, and each index is below the counter of the array that tag
      selects. The registry itself never checks this. */
  predicate Resolves(s: SceneSnapshot, o: SceneObject)
  {
    && ShapeKindOf(o.shapeType).Some?
    && 0 <= o.shapeIndex < ShapeCount(s, ShapeKindOf(o.shapeType).value)
    && SurfaceKindOf(o.surfaceType).Some?
    && 0 <= o.surfaceIndex < SurfaceCount(s, SurfaceKindOf(o.surfaceType).value)
  }

  /** The eight counters of a registry, in snapshot order. */
  datatype SceneCounts = SceneCounts(
    sceneObjects: nat, rectangleShapes: nat, sphereShapes: nat, cylinderMantleShapes: nat,
    colourSurfaces: nat, mirrorSurfaces: nat, thinFocussingSurfaces: nat, checkerboardSurfaces: nat)

  /** The counters of a snapshot. */
  function CountsOf(s: SceneSnapshot): SceneCounts
  {
    SceneCounts(
      s.sceneObjects.count, s.rectangleShapes.count, s.sphereShapes.count, s.cylinderMantleShapes.count,
      s.colourSurfaces.count, s.mirrorSurfaces.count, s.thinFocussingSurfaces.count, s.checkerboardSurfaces.count)
  }

  /** No counter of `c` is above the same counter of `d`. */
  predicate CountsGrow(c: SceneCounts, d: SceneCounts)
  {
    && c.sceneObjects <= d.sceneObjects
    && c.rectangleShapes <= d.rectangleShapes
    && c.sphereShapes <= d.sphereShapes
    && c.cylinderMantleShapes <= d.cylinderMantleShapes
    && c.colourSurfaces <= d.colourSurfaces
    && c.mirrorSurfaces <= d.mirrorSurfaces
    && c.thinFocussingSurfaces <= d.thinFocussingSurfaces
    && c.checkerboardSurfaces <= d.checkerboardSurfaces
  }

  /** A reference that resolves keeps resolving in any later state whose
      counters are no smaller, which every add and replace guarantees. */
  lemma ResolvesStable(s: SceneSnapshot, t: SceneSnapshot, o: SceneObject)
    requires CountsGrow(CountsOf(s), CountsOf(t)) && Resolves(s, o)
    ensures Resolves(t, o)
  {
  }

  class RaytracingScene {
    const sceneObjects: Slots<SceneObject>
    const rectangleShapes: Slots<RectangleShape>
    const sphereShapes: Slots<SphereShape>
    const cylinderMantleShapes: Slots<CylinderMantleShape>
    const colourSurfaces: Slots<ColourSurface>
    const mirrorSurfaces: Slots<MirrorSurface>
    const thinFocussingSurfaces: Slots<ThinFocussingSurface>
    const checkerboardSurfaces: Slots<CheckerboardSurface>

    /** The objects whose state makes up the registry. */
    ghost function Repr(): set<object>
      reads this
    {
      {sceneObjects, sceneObjects.arr, rectangleShapes, rectangleShapes.arr,
       sphereShapes, sphereShapes.arr, cylinderMantleShapes, cylinderMantleShapes.arr,
       colourSurfaces, colourSurfaces.arr, mirrorSurfaces, mirrorSurfaces.arr,
       thinFocussingSurfaces, thinFocussingSurfaces.arr, checkerboardSurfaces, checkerboardSurfaces.arr}
    }

    ghost predicate Valid()
      reads this, Repr()
    {
      && sceneObjects.Valid() && sceneObjects.capacity == MaxSceneObjects
      && sceneObjects.fill == SceneObjects.Default
      && rectangleShapes.Valid() && rectangleShapes.capacity == MaxRectangleShapes
      && rectangleShapes.fill == ZRectangleShape
      && sphereShapes.Valid() && sphereShapes.capacity == MaxSphereShapes
      && sphereShapes.fill == UnitSphereShape
      && cylinderMantleShapes.Valid() && cylinderMantleShapes.capacity == MaxCylinderMantleShapes
      && cylinderMantleShapes.fill == XCylinderMantleShape
      && colourSurfaces.Valid() && colourSurfaces.capacity == MaxColourSurfaces
      && colourSurfaces.fill == WhiteSurface
      && mirrorSurfaces.Valid() && mirrorSurfaces.capacity == MaxMirrorSurfaces
      && mirrorSurfaces.fill == PerfectMirrorSurface
      && thinFocussingSurfaces.Valid() && thinFocussingSurfaces.capacity == MaxThinFocussingSurfaces
      && thinFocussingSurfaces.fill == IdealThinLensSurface
      && checkerboardSurfaces.Valid() && checkerboardSurfaces.capacity == MaxCheckerboardSurfaces
      && checkerboardSurfaces.fill == BlackWhiteCheckers
    }

    /** The registry's counters and arrays as they are now, of which the
      kernel receives the arrays and the scene-object counter. Whatever the
      registry has been through, the snapshot keeps each counter within its
      capacity, each array at its constant length and each unused slot at its
      fill record. */
    function Snapshot(): (s: SceneSnapshot)
      reads this, Repr()
      requires Valid()
      ensures SnapshotValid(s)
      ensures CountsOf(s) == Counts()
    {
      SceneSnapshot(
        sceneObjects.View(), rectangleShapes.View(), sphereShapes.View(), cylinderMantleShapes.View(),
        colourSurfaces.View(), mirrorSurfaces.View(), thinFocussingSurfaces.View(), checkerboardSurfaces.View())
    }

    /** The eight counters as they are now. */
    function Counts(): (c: SceneCounts)
      reads this, sceneObjects, rectangleShapes, sphereShapes, cylinderMantleShapes
      reads colourSurfaces, mirrorSurfaces, thinFocussingSurfaces, checkerboardSurfaces
    {
      SceneCounts(
        sceneObjects.count, rectangleShapes.count, sphereShapes.count, cylinderMantleShapes.count,
        colourSurfaces.count, mirrorSurfaces.count, thinFocussingSurfaces.count, checkerboardSurfaces.count)
    }

    constructor ()
      ensures Valid()
      ensures fresh(sceneObjects) && fresh(sceneObjects.arr) && fresh(rectangleShapes) && fresh(rectangleShapes.arr)
      ensures fresh(sphereShapes) && fresh(sphereShapes.arr) && fresh(cylinderMantleShapes) && fresh(cylinderMantleShapes.arr)
      ensures fresh(colourSurfaces) && fresh(colourSurfaces.arr) && fresh(mirrorSurfaces) && fresh(mirrorSurfaces.arr)
      ensures fresh(thinFocussingSurfaces) && fresh(thinFocussingSurfaces.arr)
      ensures fresh(checkerboardSurfaces) && fresh(checkerboardSurfaces.arr)
      ensures sceneObjects.count == 0 && rectangleShapes.count == 0 && sphereShapes.count == 0
      ensures cylinderMantleShapes.count == 0 && colourSurfaces.count == 0 && mirrorSurfaces.count == 0
      ensures thinFocussingSurfaces.count == 0 && checkerboardSurfaces.count == 0
    {
      var so := new Slots(MaxSceneObjects, SceneObjects.Default);
      var rs := new Slots(MaxRectangleShapes, ZRectangleShape);
      var ss := new Slots(MaxSphereShapes, UnitSphereShape);
      var cs := new Slots(MaxCylinderMantleShapes, XCylinderMantleShape);
      var cos := new Slots(MaxColourSurfaces, WhiteSurface);
      var ms := new Slots(MaxMirrorSurfaces, PerfectMirrorSurface);
      var ts := new Slots(MaxThinFocussingSurfaces, IdealThinLensSurface);
      var bs := new Slots(MaxCheckerboardSurfaces, BlackWhiteCheckers);
      sceneObjects, rectangleShapes, sphereShapes, cylinderMantleShapes := so, rs, ss, cs;
      colourSurfaces, mirrorSurfaces, thinFocussingSurfaces, checkerboardSurfaces := cos, ms, ts, bs;
    }

    /** Registers a scene object, whatever its tags and indices refer to. */
    method AddSceneObject(o: SceneObject) returns (r: Option<nat>)
      requires Valid()
      modifies sceneObjects, sceneObjects.arr
      ensures Valid()
      ensures CountsGrow(old(Counts()), Counts())
      ensures r == if old(sceneObjects.count) < MaxSceneObjects then Some(old(sceneObjects.count)) else None
      ensures sceneObjects.count == if r.Some? then old(sceneObjects.count) + 1 else old(sceneObjects.count)
      ensures sceneObjects.View() == Added(old(sceneObjects.View()), o)
    {
      r := sceneObjects.Add(o);
    }

    method AddRectangleShape(x: RectangleShape) returns (r: Option<nat>)
      requires Valid()
      modifies rectangleShapes, rectangleShapes.arr
      ensures Valid()
      ensures CountsGrow(old(Counts()), Counts())
      ensures r == if old(rectangleShapes.count) < MaxRectangleShapes then Some(old(rectangleShapes.count)) else None
      ensures rectangleShapes.count == if r.Some? then old(rectangleShapes.count) + 1 else old(rectangleShapes.count)
      ensures rectangleShapes.View() == Added(old(rectangleShapes.View()), x)
    {
      r := rectangleShapes.Add(x);
    }

    method AddSphereShape(x: SphereShape) returns (r: Option<nat>)
      requires Valid()
      modifies sphereShapes, sphereShapes.arr
      ensures Valid()
      ensures CountsGrow(old(Counts()), Counts())
      ensures r == if old(sphereShapes.count) < MaxSphereShapes then Some(old(sphereShapes.count)) else None
      ensures sphereShapes.count == if r.Some? then old(sphereShapes.count) + 1 else old(sphereShapes.count)
      ensures sphereShapes.View() == Added(old(sphereShapes.View()), x)
    {
      r := sphereShapes.Add(x);
    }

    method AddCylinderMantleShape(x: CylinderMantleShape) returns (r: Option<nat>)
      requires Valid()
      modifies cylinderMantleShapes, cylinderMantleShapes.arr
      ensures Valid()
      ensures CountsGrow(old(Counts()), Counts())
      ensures r == if old(cylinderMantleShapes.count) < MaxCylinderMantleShapes then Some(old(cylinderMantleShapes.count)) else None
      ensures cylinderMantleShapes.count == if r.Some? then old(cylinderMantleShapes.count) + 1 else old(cylinderMantleShapes.count)
      ensures cylinderMantleShapes.View() == Added(old(cylinderMantleShapes.View()), x)
    {
      r := cylinderMantleShapes.Add(x);
    }

    method AddColourSurface(x: ColourSurface) returns (r: Option<nat>)
      requires Valid()
      modifies colourSurfaces, colourSurfaces.arr
      ensures Valid()
      ensures CountsGrow(old(Counts()), Counts())
      ensures r == if old(colourSurfaces.count) < MaxColourSurfaces then Some(old(colourSurfaces.count)) else None
      ensures colourSurfaces.count == if r.Some? then old(colourSurfaces.count) + 1 else old(colourSurfaces.count)
      ensures colourSurfaces.View() == Added(old(colourSurfaces.View()), x)
    {
      r := colourSurfaces.Add(x);
    }

    method AddMirrorSurface(x: MirrorSurface) returns (r: Option<nat>)
      requires Valid()
      modifies mirrorSurfaces, mirrorSurfaces.arr
      ensures Valid()
      ensures CountsGrow(old(Counts()), Counts())
      ensures r == if old(mirrorSurfaces.count) < MaxMirrorSurfaces then Some(old(mirrorSurfaces.count)) else None
      ensures mirrorSurfaces.count == if r.Some? then old(mirrorSurfaces.count) + 1 else old(mirrorSurfaces.count)
      ensures mirrorSurfaces.View() == Added(old(mirrorSurfaces.View()), x)
    {
      r := mirrorSurfaces.Add(x);
    }

    method AddThinFocussingSurface(x: ThinFocussingSurface) returns (r: Option<nat>)
      requires Valid()
      modifies thinFocussingSurfaces, thinFocussingSurfaces.arr
      ensures Valid()
      ensures CountsGrow(old(Counts()), Counts())
      ensures r == if old(thinFocussingSurfaces.count) < MaxThinFocussingSurfaces then Some(old(thinFocussingSurfaces.count)) else None
      ensures thinFocussingSurfaces.count == if r.Some? then old(thinFocussingSurfaces.count) + 1 else old(thinFocussingSurfaces.count)
      ensures thinFocussingSurfaces.View() == Added(old(thinFocussingSurfaces.View()), x)
    {
      r := thinFocussingSurfaces.Add(x);
    }

    method AddCheckerboardSurface(x: CheckerboardSurface) returns (r: Option<nat>)
      requires Valid()
      modifies checkerboardSurfaces, checkerboardSurfaces.arr
      ensures Valid()
      ensures CountsGrow(old(Counts()), Counts())
      ensures r == if old(checkerboardSurfaces.count) < MaxCheckerboardSurfaces then Some(old(checkerboardSurfaces.count)) else None
      ensures checkerboardSurfaces.count == if r.Some? then old(checkerboardSurfaces.count) + 1 else old(checkerboardSurfaces.count)
      ensures checkerboardSurfaces.View() == Added(old(checkerboardSurfaces.View()), x)
    {
      r := checkerboardSurfaces.Add(x);
    }

    /** Replaces a registered rectangle wholesale, as the application does
      when a mirror is moved; no counter changes. */
    method ReplaceRectangleShape(i: nat, x: RectangleShape)
      requires Valid() && i < rectangleShapes.count
      modifies rectangleShapes.arr
      ensures Valid()
      ensures CountsGrow(old(Counts()), Counts())
      ensures rectangleShapes.View() == Replaced(old(rectangleShapes.View()), i, x)
    {
      rectangleShapes.Replace(i, x);
    }

    /** Replaces a registered sphere, as a radius or centre update does. */
    method ReplaceSphereShape(i: nat, x: SphereShape)
      requires Valid() && i < sphereShapes.count
      modifies sphereShapes.arr
      ensures Valid()
      ensures CountsGrow(old(Counts()), Counts())
      ensures sphereShapes.View() == Replaced(old(sphereShapes.View()), i, x)
    {
      sphereShapes.Replace(i, x);
    }

    /** Replaces a registered mirror surface, as a reflection-loss update does. */
    method ReplaceMirrorSurface(i: nat, x: MirrorSurface)
      requires Valid() && i < mirrorSurfaces.count
      modifies mirrorSurfaces.arr
      ensures Valid()
      ensures CountsGrow(old(Counts()), Counts())
      ensures mirrorSurfaces.View() == Replaced(old(mirrorSurfaces.View()), i, x)
    {
      mirrorSurfaces.Replace(i, x);
    }
  }

  /** A registry as constructed exports the initial snapshot: every counter
      0, every array at its capacity and full of its fill record. */
  method NewSceneSnapshot() returns (s: SceneSnapshot)
    ensures s == InitialSnapshot()
  {
    var scene := new RaytracingScene();
    s := scene.Snapshot();
    InitialSnapshotUnique(s);
  }
}
