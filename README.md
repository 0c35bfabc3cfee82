# Scene registry of a GPU ray tracer

This project models the scene registry of a browser ray tracer written in
JavaScript. The registry is the host-side `RaytracingScene` object. It holds
eight fixed-capacity arrays:

- scene objects;
- rectangle, sphere and cylinder-mantle shapes;
- colour, mirror, thin-focussing and checkerboard surfaces.

Each array comes with a counter. Every array is created at its capacity
constant and filled with one default record of its kind. An add method stores
its argument at the counter's position, returns the old counter as the new
record's index and increments the counter. When the array is full it returns
`null` and changes nothing. A scene object binds a shape and a surface, each
named by a type tag and an index into the array that tag selects. The
registry never checks such a binding. The shading kernel reads all eight
arrays and the scene-object counter, so a binding only means something if the
application registers the referenced records first.

Modules:

- `Wrappers`: `Option`, which stands for the source's `null` result.
- `Vectors`: 3- and 4-vectors over `real`, and the grey colour factor of a
  coefficient.
- `Constants`: capacities, type tags, optical enums, transmission
  coefficients and colour factors. The closed sets of shape and surface kinds
  are datatypes, with tag decoding proved both ways.
- `SceneObjects`: the scene-object record, its constructor and the default
  record.
- `Shapes` and `Surfaces`: the stored records and the fill records, as
  values.
- `SlotArrays`: the pure specification of one slot array (`SlotView`,
  `Added`, `NextIndex`, `Replaced`, and `AddAll` for a run of adds), lemmas
  about runs of adds, and the class `Slots<T>` that implements one slot array
  in place on an `array<T>` with a counter.
- `Scene`: the class `RaytracingScene`, made of eight `Slots` objects with its
  eight add methods and the in-place replacements the application performs.
  It also holds the snapshot of all eight counters and arrays (of which the
  kernel receives the arrays and the scene-object counter), its validity
  invariant, the initial snapshot, and when a binding resolves.
- `SceneSetup`: the application's start-up scene, moving a mirror, and two
  short runs that show unchecked bindings and overflow.

## Model

| member | source | states |
|---|---|---|
| Constants.CapacitiesPositive | raytracing/Constants.js:4-11 | every capacity is positive; the scene-object and rectangle capacities are 50 and the checkerboard capacity is 2 |
| Constants.ShapeKindOf | raytracing/Constants.js:14-16 | a shape tag names a kind exactly when it is 0, 1 or 2, and the kind it names carries that tag |
| Constants.SurfaceKindOf | raytracing/Constants.js:21-24 | a surface tag names a kind exactly when it is 0..3, and the kind it names carries that tag |
| Constants.ShapeTag | raytracing/Constants.js:14-16 | every shape kind's tag is one of 0, 1, 2 |
| Constants.SurfaceTag | raytracing/Constants.js:21-24 | every surface kind's tag is one of 0..3 |
| Constants.ShapeCapacity | raytracing/Constants.js:5-7 | the capacity of each shape kind's array is positive |
| Constants.SurfaceCapacity | raytracing/Constants.js:8-11 | the capacity of each surface kind's array is positive |
| Constants.TagsDistinct | raytracing/Constants.js:14-24 | distinct shape kinds have distinct tags, and so do distinct surface kinds |
| Constants.OpticalTypesDistinct | raytracing/Constants.js:27-33 | the refraction types differ from each other, and so do the three focussing types |
| Constants.TransmissionCoefficients | raytracing/Constants.js:36-50 | the two-surface coefficient is the square of the one-surface coefficient (over the reals), and each colour factor is the grey factor (c, c, c, 1) of its coefficient |
| Vectors.CoefficientToColourFactor | raytracing/Util.js:18-20 | the factor has the coefficient in its three colour components and 1 in the fourth |
| SceneObjects.New | raytracing/SceneObject.js:10-22 | the constructor stores each of its five arguments unchanged and accepts any tag and index |
| SceneObjects.DefaultIsInvisibleFirstSlot | raytracing/SceneObject.js:8 | the default scene object is invisible, and its shape and surface are tag 0 at index 0 |
| SlotArrays.Fresh | raytracing/RaytracingScene.js:14-15 | a new slot array has counter 0, no registered records, length equal to its capacity and the fill in every slot |
| SlotArrays.NextIndex | raytracing/RaytracingScene.js:88-96 | an add returns an index exactly when the counter is below the capacity, and that index is the old counter |
| SlotArrays.Added | raytracing/RaytracingScene.js:88-96 | with room, the registered records grow by exactly the added record and the counter by one; when full, nothing changes; the capacity never changes; no slot above the new counter changes |
| SlotArrays.Replaced | main.js:527-549 | replacing a registered record changes only that record: the counter, the length and the unused tail stay the same |
| SlotArrays.AddAll | raytracing/RaytracingScene.js:88-96 | a run of adds keeps the array well formed and its length unchanged, and yields one result per add |
| SlotArrays.AddAllIndices | raytracing/RaytracingScene.js:88-96 | a run of adds hands out consecutive indices starting at the old counter, in call order and with no gaps, until the capacity is reached, and nothing after that |
| SlotArrays.AddAllCount | raytracing/RaytracingScene.js:88-96 | after a run of adds the counter is the old counter plus the number of adds, capped at the capacity |
| SlotArrays.AddAllContents | raytracing/RaytracingScene.js:88-96 | after a run of adds the registered records are the old ones followed by the records of the adds that found room, in call order |
| SlotArrays.AddAllTail | raytracing/RaytracingScene.js:88-96 | a run of adds never touches a slot above the final counter, so the unused tail keeps its fill |
| SlotArrays.RegistrationOrder | raytracing/RaytracingScene.js:88-96 | on a fresh array, the i-th add returns i while i is below the capacity and nothing from then on; the counter ends at min(adds, capacity), and the stored records are the first that many arguments |
| SlotArrays.FullAfterCapacityAdds | raytracing/RaytracingScene.js:165-173 | once capacity-many adds have succeeded, the next add returns nothing and leaves the array unchanged |
| SlotArrays.Slots.constructor | raytracing/RaytracingScene.js:14-15 | a new slot array has its capacity as length, the fill in every slot and counter 0 |
| SlotArrays.Slots.Add | raytracing/RaytracingScene.js:88-96 | the returned index and the new counter and array are exactly those of `NextIndex` and `Added` applied to the old state |
| SlotArrays.Slots.Replace | main.js:527-531 | the new counter and array are exactly those of `Replaced` applied to the old state |
| Scene.InitialSnapshot | raytracing/RaytracingScene.js:12-64 | the initial snapshot is valid, and all eight of its counters are 0 |
| Scene.InitialSnapshotUnique | raytracing/RaytracingScene.js:12-64 | a valid snapshot whose eight counters are 0 is the initial snapshot: each array is its capacity-many copies of its fill record |
| Scene.NewSceneSnapshot | raytracing/RaytracingScene.js:12-64 | a newly constructed registry exports exactly the initial snapshot |
| Scene.RaytracingScene.constructor | raytracing/RaytracingScene.js:12-64 | the eight arrays are new, each has its capacity constant as length and its kind's fill record in every slot, and every counter is 0 |
| Scene.RaytracingScene.Snapshot | main.js:323-331 | the registry's counters and arrays, of which the kernel receives the arrays and the scene-object counter, are valid in every reachable state: each counter is within its capacity, each array has its capacity constant as length, and each unused slot holds its fill record |
| Scene.RaytracingScene.AddSceneObject | raytracing/RaytracingScene.js:88-96 | returns the old scene-object counter if it is below 50 and nothing otherwise; the counter grows by one exactly on success; the array changes as `Added` says; no counter of the registry decreases; no other array changes |
| Scene.RaytracingScene.AddRectangleShape | raytracing/RaytracingScene.js:99-107 | the same for the rectangle array, with capacity 50 |
| Scene.RaytracingScene.AddSphereShape | raytracing/RaytracingScene.js:110-118 | the same for the sphere array, with capacity 10 |
| Scene.RaytracingScene.AddCylinderMantleShape | raytracing/RaytracingScene.js:121-129 | the same for the cylinder-mantle array, with capacity 10 |
| Scene.RaytracingScene.AddColourSurface | raytracing/RaytracingScene.js:132-140 | the same for the colour-surface array, with capacity 10 |
| Scene.RaytracingScene.AddMirrorSurface | raytracing/RaytracingScene.js:143-151 | the same for the mirror-surface array, with capacity 10 |
| Scene.RaytracingScene.AddThinFocussingSurface | raytracing/RaytracingScene.js:154-162 | the same for the thin-focussing-surface array, with capacity 10 |
| Scene.RaytracingScene.AddCheckerboardSurface | raytracing/RaytracingScene.js:165-173 | the same for the checkerboard-surface array, with capacity 2 |
| Scene.RaytracingScene.ReplaceRectangleShape | main.js:527-549 | overwrites one registered rectangle in place; only that slot changes, no counter decreases, and the registry stays valid |
| Scene.RaytracingScene.ReplaceSphereShape | main.js:552-557 | overwrites one registered sphere in place; only that slot changes and no counter decreases |
| Scene.RaytracingScene.ReplaceMirrorSurface | main.js:520-524 | overwrites one registered mirror surface in place; only that slot changes and no counter decreases |
| Scene.ResolvesStable | raytracing/RaytracingScene.js:88-173 | a binding that resolves keeps resolving in any later state whose counters are no smaller; every add and replace guarantees that its counters are no smaller (`CountsGrow(old(Counts()), Counts())` in their contracts) |
| SceneSetup.InitRaytracingScene | main.js:206-271 | the start-up scene gets mirror surface 0, mirror objects 0..3 and sphere object 4; the counters end at 5 objects, 4 rectangles, 1 sphere, 1 colour surface, 1 mirror surface and 0 of the rest; the stored objects are exactly the five start-up bindings, the rectangles are stored in call order, the sphere array holds the sphere, the colour-surface array holds the red surface, and the mirror-surface array holds the perfect mirror |
| SceneSetup.PopulateScene | main.js:209-271 | on an empty registry, the start-up adds return the indices 0, 0, 1, 2, 3, 4 and leave exactly the five start-up bindings, the four rectangles in call order, the sphere, the red colour surface and the perfect mirror surface |
| SceneSetup.AddMirrors | main.js:214-260 | four mirrors on the same mirror surface take four consecutive scene-object indices and four consecutive rectangle indices, in call order |
| SceneSetup.AddMirrorPair | main.js:214-236 | two mirrors on the same mirror surface take two consecutive scene-object indices and two consecutive rectangle indices, in call order |
| SceneSetup.AddMirror | main.js:214-224 | one mirror adds its rectangle and then its scene object; the object is visible and bound to the new rectangle's index and the given mirror surface |
| SceneSetup.AddSphere | main.js:262-271 | the sphere shape, then the colour surface, then the scene object are added; the object is bound to the indices the first two adds returned |
| SceneSetup.StartUpObjectsResolve | main.js:206-271 | every start-up binding resolves against the counters the start-up scene leaves |
| SceneSetup.MoveMirror | main.js:527-537 | the rectangle that a mirror's scene object refers to is replaced, and the exported snapshot differs from the old one only in that slot |
| SceneSetup.AddKeepsBinding | raytracing/RaytracingScene.js:88-96 | a scene object whose binding resolves still resolves after any further scene object is registered, because the add does not lower any counter |
| SceneSetup.UncheckedBinding | raytracing/RaytracingScene.js:88-96 | a scene object naming a rectangle that was never registered is still accepted, at index 0, although its binding does not resolve |
| SceneSetup.TwoCheckerboards | raytracing/RaytracingScene.js:165-173 | on a new registry the first two checkerboard adds return 0 and 1, fill the array and store exactly the two records in call order |
| SceneSetup.AddToFullCheckerboards | raytracing/RaytracingScene.js:165-173 | on a full checkerboard array, two more adds both return nothing and leave the array as it was |
| SceneSetup.CheckerboardOverflow | raytracing/RaytracingScene.js:165-173 | with capacity 2, the first two checkerboard adds return 0 and 1; the third and fourth return nothing; the array keeps exactly the first two records |

## Left out

- The browser user interface, rendering, camera and video, the GPU uniforms
  beyond the exported arrays and counters, and the shading kernel are outside
  this model. Logging to the console is left out too. The model's snapshot
  holds all eight counters; the application passes the kernel the eight
  arrays but only the scene-object counter (main.js:323-331 and 338).
- The geometry inside the shape and surface records is left out. This covers
  the corner, span and normal computations of `getRectangleShape`,
  `getSphereShape` and the rest. The records are opaque values, and
  `SceneSetup.InitRaytracingScene` takes the four rectangles and the sphere as
  parameters.
- Numbers are modelled as mathematical reals and integers, not IEEE doubles.
  In particular `0.96 * 0.96 == 0.9216` holds only over the reals. In double
  precision the product and the literal may differ in the last bits.
- The source's `null` is modelled as `None`. Because scene-object fields
  accept any value, a JavaScript caller can store `null` as a shape index,
  which is what happens when an add that fills a reference fails. The model
  uses `int` fields, so that case cannot be expressed.
- Aliasing of records is not captured, because records are values here. Each
  array is filled with one shared default object. The mirror surface
  registered at start-up is that same shared object. So the reflection-loss
  update at main.js:520-524, which mutates `colourFactor` of one slot, also
  changes every unused mirror slot and the static default in the source. The
  model replaces the slot's record wholesale instead
  (`Scene.RaytracingScene.ReplaceMirrorSurface`). The sphere-radius update at
  main.js:552-557 is modelled the same way.
- The base-height update at main.js:509-517 is not modelled. It changes
  `corner.y` of the four registered mirror rectangles and `centre.y` of the
  registered sphere in place, field by field. It changes no counter and no
  other slot. Modelled by value, it would be four rectangle replacements and
  one sphere replacement.
- Scene.RaytracingScene.ReplaceRectangleShape: requires a registered index
  (`i < count`). The application writes the JavaScript array directly, and
  JavaScript would also accept an index past the counter or past the capacity
  (the latter grows the array). The application only ever uses indices that
  the adds returned.
- Scene.RaytracingScene.ReplaceSphereShape and
  Scene.RaytracingScene.ReplaceMirrorSurface: same restriction and reason as
  `ReplaceRectangleShape`.
- SceneSetup.PopulateScene, SceneSetup.AddMirrors and
  SceneSetup.AddMirrorPair split the start-up sequence of `initRaytracingScene`
  into smaller steps so that each can be proved separately. They perform the
  same adds in the same order. SceneSetup.TwoCheckerboards and
  SceneSetup.AddToFullCheckerboards split the overflow run in the same way.
- No member states explicitly that the arrays an add does not name stay the
  same. That frame is stated by each add method's `modifies` clause, which
  names only its own slot array.
