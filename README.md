# Spring engine core: collision volumes, command tags, Lua material bins, players, game setup, overhead camera

This project models parts of the Spring real-time strategy engine and of its
NTai skirmish AI, and proves properties of that model in Dafny.

- **Collision volumes** (`collision.dfy`, with `vectors.dfy`). Every unit and
  feature has a collision volume: an ellipsoid, a cylinder along one primary
  axis, or a box, all centred in volume space with half-scales `h`.
  - `CCollisionHandler::Collision` tests whether a world point is inside the
    volume.
  - `CCollisionHandler::Intersect` tests whether a segment crosses the volume.
    It first runs a bounding-box reject, then one of three solvers:
    - a unit-sphere quadratic for ellipsoids;
    - a cross-section quadratic plus cap planes for cylinders;
    - the slab method for boxes.
  - The solvers fill an optional `CollisionQuery` record (`b0 b1 t0 t1 p0 p1`).
  - `DetectHit` dispatches on the volume's test type and counts tests in two
    `unsigned int` counters.
  - Geometry is over the reals. Matrices are a map into volume space.
  - The cylinder solver's quirks are kept as written:
    - the tangent root is `-D/2A`;
    - side candidates are not required to lie ahead of the start;
    - the early exit leaves the primary coordinate unscaled;
    - the second cap plane repeats the first.
    Lemmas state what each quirk does.
- **Command queue** (`command_queue.dfy`). NTai's `CCommandQueue` is a deque
  of commands. It stamps every command it takes in with a tag from a counter
  that wraps from `2^24 - 1` back to 1.
- **Lua materials** (`lua_material.dfy`). This covers:
  - the three-way comparison of shaders, textures and materials;
  - the `Finalize` normalisation and the texture count it sets;
  - the LOD and custom-uniform setters;
  - reference-counted material bins, kept by `LuaMatHandler` in one set per
    material type.
- **Players** (`player.dfy`). The teams a `CPlayer` may command, recomputed
  for every active player.
- **Game setup message** (`game_data.dfy`). `GameData`'s `Pack` and its
  unpacking constructor, as a sequence of typed fields with a 16-bit size.
- **Overhead camera** (`overhead_controller.dfy`). This covers:
  - the `GetState`/`SetState` save and restore;
  - the clamps of `GetPos`;
  - the tilt clamp of `MouseWheelMove`.

Three kinds of definition appear throughout.

- State that the engine updates in place is a Dafny `class`. Each method's
  `ensures` ties the new state to a specification function.
- Pure computations are functions.
- The properties are lemmas about those functions.

## Model

| member | source | states |
|---|---|---|
| Collision.PointInVolume | rts/Sim/Misc/CollisionHandler.cpp:123-164 | membership per shape: the ellipsoid's surface counts as inside, and a spherical one compares `dot(pi,pi)` with `hx^2`; a cylinder needs the primary coordinate strictly between the caps and the cross-section sum at most 1; a box needs every coordinate strictly inside; an unknown shape is never hit |
| Collision.Collision | rts/Sim/Misc/CollisionHandler.cpp:67-107 | a point farther than the bounding radius is never inside; within it, a spherical volume accepts without a shape test, and any other volume runs the shape test on the mapped point |
| Collision.Deliver | rts/Sim/Misc/CollisionHandler.cpp:258-267 | a null query record stays null, a test that writes nothing leaves the record as it was, and otherwise the record becomes what the test wrote |
| Collision.IntersectEllipsoid | rts/Sim/Misc/CollisionHandler.cpp:250-339 | a start inside the unit sphere reports the start-inside record; `D < -EPS` writes nothing and misses; otherwise the result is `b0 or b1`, each candidate valid iff `t > 0` and no farther from the start than the end; in the tangent case `b1` is false and `t0 = -B/2`; in the two-root case `p1` is the second root's point and `b1` holds iff `t1 > 0` and it lies within the segment |
| Collision.RootOfQuadratic | rts/Sim/Misc/CollisionHandler.cpp:310-312 | `(-b +- sqrt(D)) / 2a` are zeros of `a t^2 + b t + c` |
| Collision.SphereSpaceMeasuresEllipsoid | rts/Sim/Misc/CollisionHandler.cpp:254-258 | the squared length in unit-sphere space is the ellipsoid's surface equation |
| Collision.EllipsoidStartInsideAgrees | rts/Sim/Misc/CollisionHandler.cpp:258-267 | the ellipsoid solver's start-inside exit fires exactly for starts inside the ellipsoid (surface included) |
| Collision.ScaledBackMeasuresEllipsoid | rts/Sim/Misc/CollisionHandler.cpp:316-320 | a unit-sphere point scaled back by the half-scales is on the ellipsoid exactly when it is on the unit sphere |
| Collision.EllipsoidQuadraticAlongRay | rts/Sim/Misc/CollisionHandler.cpp:270-278 | along the normalised sphere-space ray the quadratic with `A = 1` is the squared distance from the centre minus one |
| Collision.UnitRayQuadratic | rts/Sim/Misc/CollisionHandler.cpp:272-278 | for a unit direction, the squared length of `o + t dir` is `t^2 + 2 (o.dir) t + dot(o,o)` |
| Collision.EllipsoidRootsOnSurface | rts/Sim/Misc/CollisionHandler.cpp:309-320 | in the two-root case both reported points lie on the ellipsoid surface |
| Collision.CylinderTangent | rts/Sim/Misc/CollisionHandler.cpp:434-453 | one-root case: when `A != 0` and the root `-D/2A` lies between the caps, `t0` is that root, `b1` is false and `b0` holds iff it is within the segment; otherwise `t0`, `t1` are the two cap-plane parameters and each is accepted iff `t > 0` and inside the cross-section |
| Collision.CylinderSides | rts/Sim/Misc/CollisionHandler.cpp:454-477 | two-root case: each side point is valid iff between the caps and no farther from the start than the end |
| Collision.CylinderCaps | rts/Sim/Misc/CollisionHandler.cpp:479-493 | fallback: each cap point is valid iff it passes the cap test and lies within the segment |
| Collision.RatioNonNegative | rts/Sim/Misc/CollisionHandler.cpp:489-490 | each cross-section term `v^2/h^2` is non-negative |
| Collision.RatioZero | rts/Sim/Misc/CollisionHandler.cpp:375-405 | a cross-section term `v^2/h^2` is zero only for a zero coordinate, so `A = 0` means no movement across the cross-section |
| Collision.CylinderFlatQuadratic | rts/Sim/Misc/CollisionHandler.cpp:375-405 | a quadratic with `A = 0` has a non-positive discriminant, so the two-root case always divides by a non-zero `2A` |
| Collision.CylinderCandidates | rts/Sim/Misc/CollisionHandler.cpp:434-477 | every candidate the tangent or two-root stage marks valid passes the side test or the cap test |
| Collision.IntersectCylinder | rts/Sim/Misc/CollisionHandler.cpp:341-503 | the early exit reports the start-inside record; `D < -EPS` writes nothing; otherwise the result is `b0 or b1` over candidates that pass the side or cap tests, with the cap fallback when the first candidates are both invalid |
| Collision.CylinderStartInsideSound | rts/Sim/Misc/CollisionHandler.cpp:364-418 | the cylinder's early exit only fires for points inside the cylinder |
| Collision.CylinderSpaceDot | rts/Sim/Misc/CollisionHandler.cpp:364-409 | the early exit's dot product of the scaled start is the unscaled primary coordinate squared plus the cross-section value |
| Collision.CapPlanesCoincide | rts/Sim/Misc/CollisionHandler.cpp:485-486 | the two cap parameters are equal: the second plane, negated normal and negated offset, is the first again |
| Collision.CapCandidateOnNearPlane | rts/Sim/Misc/CollisionHandler.cpp:485-488 | for a ray not parallel to the caps, the cap candidate lies on the `-h` plane |
| Collision.CylinderQuadraticAlongRay | rts/Sim/Misc/CollisionHandler.cpp:375-405 | the cylinder quadratic at `t` is the cross-section value of the ray point minus one |
| Collision.CylinderSideRootsOnSurface | rts/Sim/Misc/CollisionHandler.cpp:456-458 | in the two-root case both side points lie on the curved surface |
| Collision.QuadraticRoots | rts/Sim/Misc/CollisionHandler.cpp:456-457 | with `A != 0` and `r^2 = D`, both `(-B + r) / 2A` and `(-B - r) / 2A` are zeros of `A t^2 + B t + C` |
| Collision.RootsOnCrossSection | rts/Sim/Misc/CollisionHandler.cpp:456-458 | both root points of the cylinder quadratic lie on the cross-section ellipse |
| Collision.CylinderReportsCandidates | rts/Sim/Misc/CollisionHandler.cpp:479-501 | when the first stage has a valid candidate, exactly that record is written and hit is true |
| Collision.CylinderReportsCaps | rts/Sim/Misc/CollisionHandler.cpp:479-501 | when both first-stage candidates are invalid, the cap fallback's record is written and the hit is its `b0 or b1` |
| Collision.CylinderTwoRootStage | rts/Sim/Misc/CollisionHandler.cpp:454-458 | with `D >= EPS`, `A` is non-zero and the first stage is the two side roots |
| Collision.CylinderFlatTangent | rts/Sim/Misc/CollisionHandler.cpp:434-453 | in the one-root case with `A = 0` the candidates are the two cap planes |
| Collision.CylinderTangentStage | rts/Sim/Misc/CollisionHandler.cpp:434-453 | with `D < EPS` the first stage is the one-root case |
| Collision.CylinderStartsInsideMeasure | rts/Sim/Misc/CollisionHandler.cpp:364-409 | the early exit holds iff the start is between the caps and its unscaled primary coordinate squared plus the cross-section value is at most one |
| Collision.CylinderEarlyExitMissesInside | rts/Sim/Misc/CollisionHandler.cpp:364-409 | a start whose primary coordinate exceeds 1 in magnitude never takes the early exit, even inside the cylinder |
| Collision.VertexRoot | rts/Sim/Misc/CollisionHandler.cpp:436 | with `D = 0`, `-B/2A` is a root |
| Collision.DoubleRootAtZero | rts/Sim/Misc/CollisionHandler.cpp:436 | with `D = 0` and `A != 0`, `C = 0` iff `B = 0` |
| Collision.CylinderTangentReportsStart | rts/Sim/Misc/CollisionHandler.cpp:434-442 | with `D = 0` the root `-D/2A` is 0, so a start between the caps is reported as the hit although the grazing point is `-B/2A`, which is on the surface and is the start only when `B = 0` |
| Collision.CylinderSideIgnoresDirection | rts/Sim/Misc/CollisionHandler.cpp:454-476 | a side point is valid iff between the caps and `t^2 <= segLenSq`, whatever the sign of `t` |
| Collision.SideAcceptsByDistance | rts/Sim/Misc/CollisionHandler.cpp:462-466 | a point along the unit ray passes the side test iff it is between the caps and `t^2 <= segLenSq` |
| Collision.CylinderSidesAccepted | rts/Sim/Misc/CollisionHandler.cpp:454-477 | when both side points pass, the first-stage record is those two points with both flags set |
| Collision.CylinderHitsBehindStart | rts/Sim/Misc/CollisionHandler.cpp:454-501 | a segment can be reported as hitting the cylinder at `t < 0`, behind its start |
| Collision.CapParallelNeverAccepted | rts/Sim/Misc/CollisionHandler.cpp:479-492 | a ray parallel to the caps gets no valid cap candidate |
| Collision.CylinderScenarioThroughSide | rts/Sim/Misc/CollisionHandler.cpp:341-503 | a segment from x=-10 to x=10 through a radius-3 cylinder on the y axis is reported with side points at x=3 and x=-3 |
| Collision.SlabCrossings | rts/Sim/Misc/CollisionHandler.cpp:530-548 | the two crossing parameters of one slab, in order |
| Collision.BoxOutcome | rts/Sim/Misc/CollisionHandler.cpp:505-611 | a start strictly inside reports the start-inside record; an empty slab window writes nothing; otherwise the window ends are the candidates, each valid iff no farther from the start than the end, and the result is `b0 or b1` |
| Collision.SlabStep | rts/Sim/Misc/CollisionHandler.cpp:530-548 | one axis of the slab method: a direction within `EPS` of zero fails iff the origin is outside the slab; otherwise the sorted crossings narrow `[tn, tf]`, failing when `tn > tf` or `tf < 0` |
| Collision.IntersectBox | rts/Sim/Misc/CollisionHandler.cpp:505-611 | the method with its in-place narrowing of `tn`/`tf` returns exactly `BoxOutcome` |
| Collision.SlabCrossingsExact | rts/Sim/Misc/CollisionHandler.cpp:530-548 | `t` lies between the sorted crossings iff the ray point at `t` lies in the closed slab |
| Collision.SlabNarrowExact | rts/Sim/Misc/CollisionHandler.cpp:530-548 | the narrowed window holds exactly the parameters of the old window that the slab admits; a failure leaves only parameters behind the start |
| Collision.SlabNarrowBounds | rts/Sim/Misc/CollisionHandler.cpp:530-548 | after a surviving step `tn <= tf`, `tf >= 0` and the window only shrinks |
| Collision.BoxWindowExact | rts/Sim/Misc/CollisionHandler.cpp:522-588 | the final window holds exactly the parameters the three slabs admit |
| Collision.BoxWindowBounds | rts/Sim/Misc/CollisionHandler.cpp:522-588 | a surviving window has `tn <= tf`, `tf >= 0` and lies within `[-BoxFar, BoxFar]` |
| Collision.BoxAdmitsClosedBox | rts/Sim/Misc/CollisionHandler.cpp:530-588 | for a ray not parallel to any axis, admission by the three slabs is membership of the closed box |
| Collision.BoxHitAdmitted | rts/Sim/Misc/CollisionHandler.cpp:590-610 | every box hit reported for a start outside has its valid candidate in the slab window |
| Collision.BoundingBoxRejectSound | rts/Sim/Misc/CollisionHandler.cpp:221-233 | a segment the reject fires on has no point in the closed box |
| Collision.BoundingBoxKeepsTouching | rts/Sim/Misc/CollisionHandler.cpp:221-233 | a segment with an end in the closed box, faces included, is never rejected |
| Collision.VolumeOutcome | rts/Sim/Misc/CollisionHandler.cpp:214-248 | the reject gives a miss without writing; an unknown shape misses; otherwise the shape's solver decides |
| Collision.EllipsoidInBox | rts/Sim/Misc/CollisionHandler.cpp:124-133 | a point in the ellipsoid is in its bounding box |
| Collision.CylinderInBox | rts/Sim/Misc/CollisionHandler.cpp:134-155 | a point in the cylinder is in its bounding box |
| Collision.VolumeStartsInside | rts/Sim/Misc/CollisionHandler.cpp:214-248 | a start the shape's early exit catches survives the reject, so the whole test reports the start-inside record |
| Collision.IntersectVolume | rts/Sim/Misc/CollisionHandler.cpp:214-248 | the method computes `VolumeOutcome` |
| Collision.Intersect | rts/Sim/Misc/CollisionHandler.cpp:172-192 | both ends are mapped into volume space; the hit and the caller's record are those of `VolumeOutcome` delivered through the optional record |
| Collision.Inc32 | rts/Sim/Misc/CollisionHandler.cpp:31-32 | `+= 1` on an `unsigned int` counter wraps to 0 after `2^32 - 1` |
| Collision.CollisionHandler.constructor | rts/Sim/Misc/CollisionHandler.cpp:31-32 | both counters start at 0 |
| Collision.CollisionHandler.DetectHit | rts/Sim/Misc/CollisionHandler.cpp:36-60 | a discrete test returns the point test on `p0` and counts only a collision test; a continuous test returns the segment test and counts only an intersection test; any other tag returns false and counts nothing |
| Vectors.NormalizeUnitLength | rts/Sim/Misc/CollisionHandler.cpp:270 | a normalised non-zero vector has unit length |
| Vectors.SqrtOfSquare | rts/Sim/Misc/CollisionHandler.cpp:310 | the square root of `x^2` for `x >= 0` is `x` |
| CommandQueue.NextTag | AI/Global/NTai/AI/NTai/SDK/CommandQueue.h:91-98 | the next counter value is in `[1, 2^24 - 1]`: one more, or 1 when that would reach `2^24` |
| CommandQueue.TagAfter | AI/Global/NTai/AI/NTai/SDK/CommandQueue.h:91-98 | the counter after `k` assignments stays in `[0, 2^24)` |
| CommandQueue.TagAfterCycle | AI/Global/NTai/AI/NTai/SDK/CommandQueue.h:91-98 | the `k`-th tag is `(counter + k - 1) mod (2^24 - 1) + 1` |
| CommandQueue.TagInRange | AI/Global/NTai/AI/NTai/SDK/CommandQueue.h:24 | every assigned tag is in `[1, 2^24 - 1]` |
| CommandQueue.SuccessiveTags | AI/Global/NTai/AI/NTai/SDK/CommandQueue.h:93-97 | away from the wrap point two successive tags differ by one |
| CommandQueue.TagsDistinctWithinPeriod | AI/Global/NTai/AI/NTai/SDK/CommandQueue.h:93-97 | fewer than `2^24 - 1` assignments apart, two tags differ |
| CommandQueue.TagsRepeatAfterPeriod | AI/Global/NTai/AI/NTai/SDK/CommandQueue.h:93-97 | after exactly `2^24 - 1` assignments the same tag returns |
| CommandQueue.Stamped | AI/Global/NTai/AI/NTai/SDK/CommandQueue.h:104 | a stamped command carries the new tag and is otherwise the command given |
| CommandQueue.CCommandQueue.constructor | AI/Global/NTai/AI/NTai/SDK/CommandQueue.h:76 | an empty command queue with counter 0, which satisfies the counter invariant |
| CommandQueue.CCommandQueue.GetType | AI/Global/NTai/AI/NTai/SDK/CommandQueue.h:20 | returns the queue type |
| CommandQueue.CCommandQueue.SetQueueType | AI/Global/NTai/AI/NTai/SDK/CommandQueue.h:82 | sets only the queue type |
| CommandQueue.CCommandQueue.Size | AI/Global/NTai/AI/NTai/SDK/CommandQueue.h:36 | the number of queued commands |
| CommandQueue.CCommandQueue.Empty | AI/Global/NTai/AI/NTai/SDK/CommandQueue.h:34 | true iff the size is 0, iff the queue holds no command |
| CommandQueue.CCommandQueue.GetNextTag | AI/Global/NTai/AI/NTai/SDK/CommandQueue.h:91-98 | advances the counter to `NextTag` and returns it, keeping `0 <= tagCounter < 2^24` |
| CommandQueue.CCommandQueue.PushBack | AI/Global/NTai/AI/NTai/SDK/CommandQueue.h:101-105 | the old commands followed by the command stamped with the fresh tag; the counter advances once |
| CommandQueue.CCommandQueue.PushFront | AI/Global/NTai/AI/NTai/SDK/CommandQueue.h:108-112 | the stamped command followed by the old commands in order; the counter advances once |
| CommandQueue.CCommandQueue.Insert | AI/Global/NTai/AI/NTai/SDK/CommandQueue.h:115-120 | the commands before `pos`, the stamped command, then the rest shifted by one; the counter advances once |
| CommandQueue.CCommandQueue.PopBack | AI/Global/NTai/AI/NTai/SDK/CommandQueue.h:43 | removes exactly the last command of a non-empty queue; counter and type untouched |
| CommandQueue.CCommandQueue.PopFront | AI/Global/NTai/AI/NTai/SDK/CommandQueue.h:44 | removes exactly the first command of a non-empty queue; counter and type untouched |
| CommandQueue.CCommandQueue.Erase | AI/Global/NTai/AI/NTai/SDK/CommandQueue.h:46-48 | removes exactly the command at `pos` |
| CommandQueue.CCommandQueue.EraseRange | AI/Global/NTai/AI/NTai/SDK/CommandQueue.h:49-51 | removes exactly the commands in `[first, last)` |
| CommandQueue.CCommandQueue.Clear | AI/Global/NTai/AI/NTai/SDK/CommandQueue.h:52 | empties the queue; counter and type untouched |
| LuaMaterial.Order | rts/Lua/LuaMaterial.cpp:145-147 | the answer for two differing values is -1 iff the first is smaller, else +1 |
| LuaMaterial.CompareLex | rts/Lua/LuaMaterial.cpp:352-398 | a lexicographic comparison answers -1, 0 or +1 |
| LuaMaterial.CompareLexZero | rts/Lua/LuaMaterial.cpp:352-398 | a lexicographic comparison is 0 iff the keys are equal |
| LuaMaterial.CompareLexAntisymmetric | rts/Lua/LuaMaterial.cpp:352-398 | swapping the keys negates the comparison |
| LuaMaterial.CompareLexTransitive | rts/Lua/LuaMaterial.cpp:352-398 | the strict order of lexicographic comparison is transitive |
| LuaMaterial.ShaderCompare | rts/Lua/LuaMaterial.cpp:143-154 | the shader comparison answers -1, 0 or +1 |
| LuaMaterial.ShaderCompareLex | rts/Lua/LuaMaterial.cpp:143-154 | shaders compare by type, then by program id only when GL |
| LuaMaterial.ShaderCompareOrdering | rts/Lua/LuaMaterial.cpp:143-154 | 0 iff equal types and, for GL, equal ids; `Compare(a,a) = 0`; antisymmetric; transitive |
| LuaMaterial.TextureCompare | rts/Lua/LuaMaterial.cpp:223-237 | the texture comparison answers -1, 0 or +1 |
| LuaMaterial.TextureCompareLex | rts/Lua/LuaMaterial.cpp:223-237 | textures compare by type, by id only for GL, then enabled before disabled |
| LuaMaterial.TextureCompareOrdering | rts/Lua/LuaMaterial.cpp:223-237 | 0 iff equal type, enable and, for GL, id; `Compare(a,a) = 0`; antisymmetric; transitive |
| LuaMaterial.TexturesCompare | rts/Lua/LuaMaterial.cpp:370-376 | the first non-zero texture comparison over the shared units answers -1, 0 or +1 |
| LuaMaterial.TexturesCompareFacts | rts/Lua/LuaMaterial.cpp:370-376 | it is 0 iff every shared unit ties, and swapping the materials negates it |
| LuaMaterial.MaterialCompare | rts/Lua/LuaMaterial.cpp:352-398 | the material comparison answers -1, 0 or +1 |
| LuaMaterial.MaterialCompareZero | rts/Lua/LuaMaterial.cpp:352-398 | 0 iff every step ties and the camera locations are equal; `Compare(a,a) = 0` |
| LuaMaterial.MaterialCompareAntisymmetric | rts/Lua/LuaMaterial.cpp:352-392 | with equal camera locations swapping the materials negates the answer |
| LuaMaterial.MaterialCompareCameraLoc | rts/Lua/LuaMaterial.cpp:393-395 | antisymmetry fails iff everything ties up to differing camera locations, and then both orders answer +1 |
| LuaMaterial.TexturesTieSymmetric | rts/Lua/LuaMaterial.cpp:370-376 | a tie over the shared texture units is symmetric |
| LuaMaterial.EquivalentIsEquivalence | rts/Lua/LuaMaterial.cpp:352-398 | comparing equal is reflexive, symmetric and transitive, so it can key a bin set |
| LuaMaterial.ShaderTieTransitive | rts/Lua/LuaMaterial.cpp:143-154 | shader ties are transitive |
| LuaMaterial.TextureTieTransitive | rts/Lua/LuaMaterial.cpp:223-237 | texture ties are transitive |
| LuaMaterial.Compare | rts/Lua/LuaMaterial.cpp:352-398 | the comparison with its loop over the shared texture units computes `MaterialCompare` |
| LuaMaterial.ShaderFinalized | rts/Lua/LuaMaterial.cpp:135-140 | the type is kept; a GL shader is unchanged; any other has program id 0 |
| LuaMaterial.ShaderFinalizedIdempotent | rts/Lua/LuaMaterial.cpp:135-140 | finalizing twice is finalizing once |
| LuaMaterial.TexturePassFacts | rts/Lua/LuaMaterial.cpp:209-219 | after a pass a GL texture with id 0 is NONE, a NONE texture is disabled, a non-GL texture has id 0, a GL one keeps its non-zero id, and a second pass changes nothing |
| LuaMaterial.TextureFinalizedIdempotent | rts/Lua/LuaMaterial.cpp:206-220 | finalizing a texture twice is finalizing it once |
| LuaMaterial.FinalizeTexture | rts/Lua/LuaMaterial.cpp:206-220 | the loop repeating the pass once per texture unit computes `TextureFinalized` |
| LuaMaterial.TexCountBelow | rts/Lua/LuaMaterial.cpp:303-310 | one past the highest non-NONE unit below `n`, or 0: that unit is not NONE and every later one below `n` is |
| LuaMaterial.FinalizeUnits | rts/Lua/LuaMaterial.cpp:303-310 | the loop finalizes every texture unit and leaves the count `TexCountBelow` of the finalized units |
| LuaMaterial.TexturesFinalized | rts/Lua/LuaMaterial.cpp:304-306 | every texture unit finalized in place |
| LuaMaterial.MaterialFinalizedFacts | rts/Lua/LuaMaterial.cpp:299-311 | after `Finalize` the material is well formed, `texCount` is one past the last non-NONE unit with only NONE after it, a non-GL shader has id 0, and finalizing again changes nothing |
| LuaMaterial.FinalizeMaterial | rts/Lua/LuaMaterial.cpp:299-311 | the loop over the texture units computes `MaterialFinalized` |
| LuaMaterial.LuaUnitUniforms.SetCustomCount | rts/Lua/LuaMaterial.cpp:65-75 | a positive count gets a fresh buffer of that many zeros, any other count a null buffer |
| LuaMaterial.LuaUnitUniforms.Assign | rts/Lua/LuaMaterial.cpp:78-104 | every field is copied and, for a positive count, a fresh buffer holds the first `customCount` values of the source's; the source is unchanged |
| LuaMaterial.Resized | rts/Lua/LuaMaterial.cpp:117 | `resize(n)`: length `n`, old elements kept, new ones default |
| LuaMaterial.PredU32 | rts/Lua/LuaMaterial.cpp:116 | `count - 1` in `unsigned int`, which is `2^32 - 1` for 0 |
| LuaMaterial.LuaUnitMaterial.SetLODCount | rts/Lua/LuaMaterial.cpp:113-119 | `lodCount = n`, `lastLOD = n - 1` unsigned, `lodMats` resized to `n`; returns true |
| LuaMaterial.LuaUnitMaterial.SetLastLOD | rts/Lua/LuaMaterial.cpp:122-126 | `lastLOD = min(lod, lodCount - 1)` unsigned; returns true |
| LuaMaterial.LuaMatBin.constructor | rts/Lua/LuaMaterial.cpp:561 | a new bin holds the material and no reference |
| LuaMaterial.LuaMatBin.Ref | rts/Lua/LuaMaterial.cpp:497-500 | adds one reference |
| LuaMaterial.LuaMatBin.UnRef | rts/Lua/LuaMaterial.cpp:503-509 | drops one reference; at 0 or below the bin is freed from its type's set, otherwise the sets are unchanged |
| LuaMaterial.Unequivalent | rts/Lua/LuaMaterial.cpp:589-600 | the bins of a set that do not compare equal to a material |
| LuaMaterial.LuaMatRef.constructor | rts/Lua/LuaMaterial.cpp:437-443 | holds the bin and adds a reference to it, if any |
| LuaMaterial.LuaMatRef.Copy | rts/Lua/LuaMaterial.cpp:474-480 | holds the same bin as the original and adds a reference to it, if any |
| LuaMaterial.LuaMatRef.Reset | rts/Lua/LuaMaterial.cpp:454-460 | drops the held reference, freeing the bin when it was the last, and holds nothing |
| LuaMaterial.LuaMatRef.Assign | rts/Lua/LuaMaterial.cpp:463-471 | the same bin changes nothing; a different bin releases the old reference (freeing it from the handler's set when the count drops to zero, as `Reset` does) and adds one to the new bin |
| LuaMaterial.LuaMatHandler.constructor | rts/Lua/LuaMaterial.cpp:526-532 | one empty bin set per material type |
| LuaMaterial.LuaMatHandler.GetRef | rts/Lua/LuaMaterial.cpp:547-564 | an untyped material gets an empty reference and nothing changes; otherwise the bin comparing equal is reused, or exactly one new bin holding the material is inserted; the returned bin gains one reference |
| LuaMaterial.LuaMatHandler.FreeBin | rts/Lua/LuaMaterial.cpp:589-600 | the bin of the type's set that compares equal to the given bin is removed, and no other set changes |
| LuaMaterial.LuaMatHandler.ClearBins | rts/Lua/LuaMaterial.cpp:567-578 | an out-of-range type clears nothing; otherwise every bin of the type is cleared |
| LuaMaterial.LuaMatHandler.ClearAllBins | rts/Lua/LuaMaterial.cpp:581-586 | every bin of every type is cleared |
| Player.AITeamsLed | rts/Game/Player.cpp:112-119 | a team index below `n` is in the set iff its slot holds an AI team with a non-empty DLL AI led by the player |
| Player.ControlledTeams | rts/Game/Player.cpp:94-120 | in god mode exactly `0 .. MAX_TEAMS-1`; otherwise a team is controlled iff it is the player's own and the player is not spectating, or it is a DLL AI team the player leads |
| Player.AllTeams | rts/Game/Player.cpp:100-102 | the team indices `0 .. n-1` |
| Player.SpectatorControlsNothing | rts/Game/Player.cpp:106-119 | a spectator who leads no DLL AI team controls no team outside god mode |
| Player.ControlledTeamsDeterminedByPlayer | rts/Game/Player.cpp:96 | the set depends only on the player's spectating, team and number and the teams, never on its previous contents |
| Player.CPlayer.constructor | rts/Game/Player.cpp:61-69 | a new player is inactive, not ready, with no CPU use or ping and zeroed statistics |
| Player.CPlayer.SetControlledTeams | rts/Game/Player.cpp:94-120 | the clear-and-refill loops leave exactly `ControlledTeams` of the current state |
| Player.CPlayer.StartSpectating | rts/Game/Player.cpp:134-136 | the player becomes a spectator; team and number are untouched |
| Player.UpdateControlledTeams | rts/Game/Player.cpp:123-131 | every non-null active player ends with the set the rule gives for its state; no player's `active`, `spectator`, `team` or `playerNum` changes |
| GameData.Encode | rts/Game/GameData.cpp:32-44 | `Pack` writes seven fields |
| GameData.DecodeEncode | rts/Game/GameData.cpp:17-44 | unpacking what `Pack` wrote is readable and restores script, map, map checksum, mod and mod checksum |
| GameData.EncodeDecode | rts/Game/GameData.cpp:17-44 | a readable packet with the computed size is exactly the encoding of what it decodes to |
| GameData.SizeFieldCountsBytes | rts/Game/GameData.cpp:34 | the stored size is the message's byte length modulo `2^16`, and equals it iff the three strings total fewer than 65522 characters |
| GameData.GameData.constructor | rts/Game/GameData.cpp:11-15 | empty strings and both checksums 0 |
| GameData.GameData.FromPacket | rts/Game/GameData.cpp:17-30 | reads id, size, script, map, map checksum, mod and mod checksum in that order; the id is the setup message's |
| GameData.GameData.Pack | rts/Game/GameData.cpp:32-44 | the buffer built field by field is `Encode` of the record |
| GameData.GameData.SetScript | rts/Game/GameData.cpp:46-49 | only the script changes |
| GameData.GameData.SetMap | rts/Game/GameData.cpp:51-55 | only the map and its checksum change |
| GameData.GameData.SetMod | rts/Game/GameData.cpp:57-61 | only the mod and its checksum change |
| OverheadController.EncodeState | rts/Game/Camera/OverheadController.cpp:153-165 | ten values, the first the controller number |
| OverheadController.DecodeState | rts/Game/Camera/OverheadController.cpp:167-182 | accepted iff exactly ten values whose first is the controller number |
| OverheadController.DecodeEncodeState | rts/Game/Camera/OverheadController.cpp:153-182 | restoring a saved state gives back position, direction, height, tilt and flip |
| OverheadController.DecodeAfterPrefix | rts/Game/Camera/OverheadController.cpp:153-171 | a state appended to a non-empty vector is refused |
| OverheadController.EncodeDecodeState | rts/Game/Camera/OverheadController.cpp:153-182 | an accepted vector saved again reproduces its first nine values and normalises the flip to +1 or -1 |
| OverheadController.ClampCoordinate | rts/Game/Camera/OverheadController.cpp:114-121 | the result is at most the upper bound, at least 0.01 when the bound allows, and unchanged when already in range |
| OverheadController.ClampHeight | rts/Game/Camera/OverheadController.cpp:122-127 | the result is at most `maxHeight`, at least 60 when `maxHeight >= 60`, and unchanged when already in range |
| OverheadController.ClampZScale | rts/Game/Camera/OverheadController.cpp:61-62 | the result is in `[0.05, 10]`, unchanged inside it and the nearer bound outside |
| OverheadController.ClampsIdempotent | rts/Game/Camera/OverheadController.cpp:114-127 | clamping a clamped value changes nothing |
| OverheadController.COverheadController.constructor | rts/Game/Camera/OverheadController.cpp:14-26 | height 500, tilt 0.5, maximum height 10000, not flipped, and the four settings read from the configuration |
| OverheadController.COverheadController.GetState | rts/Game/Camera/OverheadController.cpp:153-165 | appends exactly the ten encoded values to the caller's vector |
| OverheadController.COverheadController.SetState | rts/Game/Camera/OverheadController.cpp:167-182 | a refused vector changes nothing; an accepted one sets position, direction, height, tilt and flip and nothing else |
| OverheadController.COverheadController.GetPos | rts/Game/Camera/OverheadController.cpp:110-135 | maximum height is `9.5 * max(mapx, mapy)`; x and z are clamped to the map, height to `[60, maxHeight]`; the camera stands `height` back along the normalised direction |
| OverheadController.COverheadController.MouseWheelTilt | rts/Game/Camera/OverheadController.cpp:58-62 | the tilt is scaled by the wheel movement (three times with Shift) and clamped into `[0.05, 10]` |
| OverheadController.COverheadController.GetDir | rts/Game/Camera/OverheadController.cpp:137-140 | returns the direction without changing state |
| OverheadController.COverheadController.SwitchFrom | rts/Game/Camera/OverheadController.cpp:142-145 | returns the position without changing state |
| OverheadController.SaveRestore | rts/Game/Camera/OverheadController.cpp:153-182 | saving into an empty vector and restoring into a camera with the same number succeeds and restores position, direction, height, tilt and flip |

## Left out

- Floating point: the model computes over the reals. It does not capture IEEE rounding, NaN or infinity.
  - Of the divisions that compute a ray parameter, only the cylinder's cap planes can divide by zero. For a ray parallel to the caps the engine stores an infinite or NaN parameter in `t0`/`t1` and the matching point in `p0`/`p1`, while the model stores 0 and the start point. `Collision.CapParallelNeverAccepted` shows no such cap candidate is accepted either way. The `-D/2A` root is only taken when `A != 0`, and the box slabs divide only when the direction component is outside `(-EPS, EPS)`.
- Square root and normalisation are a function constrained only by the law `sqrt(x)^2 = x, sqrt(x) >= 0` (`SqrtLaw(Sqrt)`). Lemmas that need it take it as a precondition.
- Matrices: `GetTransformMatrix`, `CMatrix44f::Invert`, `Mul` and `Translate` are not part of this model. An object's map into volume space is a function field of `Collidable`. The unit and feature overloads of `Collision`, `Intersect` and `DetectHit` are modelled once through it.
- Header constants are declared without a value, since their headers are not part of this model: `EPS` (only its positivity is assumed), `MaxTexUnits`, `MatTypeCount`, `MaxTeams`, `SquareSize` and `NETMSG_GAMEDATA`. Shader and texture types are numbered in their declaration order.
- `IntersectAlt` is commented out in the source and is not modelled.
- All OpenGL and logging calls: `LuaUnitUniforms::Execute`, the `Execute` and `Print` methods, and the error messages of `GetRef` and `FreeBin`.
- `LuaMatBin::Clear`, `AddUnit` and `LuaMatRef::AddUnit` are not part of this model. `ClearBins` returns the set of bins it would clear.
- `LuaMatBinSet`'s comparator is not part of this model. The bin set is a set in which no two bins compare equal, and lookup is by `Compare == 0`.
- The `LuaMatRef` destructor is the same as `Reset` and is not modelled separately. The `LuaMatHandler` destructor, which deletes every bin, is not modelled.
- LuaMaterial.LuaMatHandler.GetRef: requires the material to be well formed (a texture count within the texture units). The source's `Compare` would read past the texture array otherwise.
- LuaMaterial.LuaMatBin.constructor: a new bin's reference count starts at 0. `LuaMaterial.cpp:561` only allocates the bin; the initial count comes from the `LuaMatBin` constructor in `LuaMaterial.h`, which is not part of this model.
- LuaMaterial.LuaUnitUniforms.Assign: requires the source object to be another one. Self-assignment in the engine frees the buffer before copying from it.
- Materials, shaders and textures are values. `Finalize` returns the finalized material instead of updating it in place.
- `CPlayer::GameFrame`, `StopControllingUnit`, the `gu` and `eventHandler` side effects of `StartSpectating`, and the direct-control fields are not modelled. The player handler is a sequence of players; its bound on `Player(i)` (`rts/Game/PlayerHandler.h`) is the precondition of `UpdateControlledTeams`.
- The byte encoding of `PackPacket`/`UnpackPacket` is not part of this model. A packet is a sequence of typed fields, and a string takes its length plus a terminator.
- OverheadController.COverheadController.GetPos: the ground height is a function parameter. The map size is given as parameters.
- `KeyMove`, `MouseMove`, `ScreenEdgeMove`, `SwitchTo` and the zoom branch of `MouseWheelMove` are not modelled. `MouseWheelTilt` is the Ctrl branch only, with the key states and mouse scale as parameters.
- OverheadController.EncodeState: converting the controller number to `float` is taken as exact.
- The `CR_BIND` / `CR_REG_METADATA` serialisation macros are not modelled.
