# RaycastVolume in Dafny

This project models `vl::RaycastVolume` from Visualization Library's volume module. `RaycastVolume` is an actor event callback used for GPU volume raycasting. It does three things:

- It owns the volume's bounding-box mesh: 8 vertices, 8 texture coordinates and a fixed table of 6 quads.
- It registers itself on an actor and installs that mesh as the actor's level-of-detail 0.
- Before the actor's first rendering pass, it writes these uniforms into the actor's uniform store: `light_position[4]`, `light_enable[4]`, `eye_position` and `eye_look`. Each one is written only if the GLSL program declares it.

The model is imperative, like the source:

- `Raycast.RaycastVolume` is a class. It has the vertex buffer `vertCoord`, the texture-coordinate buffer `texCoord` (both arrays of 8 entries) and the stored `box`.
- `Raycast.Geometry` is the mesh object those arrays are installed in. It holds the 24-entry index buffer of the quad draw call and the bounds-dirty flag.
- `Raycast.Actor` holds the parts of an actor that this code changes: its ordered callback list, its LOD slots and its uniform store. It also holds the world matrix of its transform, which is only read.

Each method is proved against a specification function on values. The properties the source promises are proved as lemmas about those functions:

- `BoxGeometry` covers corner order, the index table, the default and inset texture coordinates (file `Geometry.dfy`).
- `CallbackList` covers erase-then-append registration (file `Callbacks.dfy`).
- `UniformSync` covers what one uniform synchronisation writes (file `Uniforms.dfy`).

Coordinates are exact reals, so the half-texel inset is exactly `1/(2n)`. Matrices and vectors are symbolic terms (`Mat`, `Vec`) that record only which transform was applied to which input. No arithmetic is done on them. So "the eye look uses the transposed inverse, the eye position uses the inverse" is an equality between terms.

The inset texture coordinates (`RaycastVolume.cpp:214-218`) use the same corner order as `setBox` (`:232-236`), with the z-max face on corners 0-3. Only the default coordinates (`:91-95`) put z = 0 on corners 0-3. `DefaultTexCoordsFlipZ` and `InsetTexCoordsLayout` state this.

## Model

| member | source | states |
|---|---|---|
| `Raycast.RaycastVolume.constructor` | VL_SDK_SRC/src/vlVolume/RaycastVolume.cpp:65-100 | fresh buffers of 8/8/24 entries installed in the geometry; index buffer holds the quad table; texture coordinates are the raw unit-cube corners; box is the unit box and the vertex buffer holds it; bounds dirty |
| `Raycast.Geometry.constructor` | VL_SDK_SRC/src/vlVolume/RaycastVolume.cpp:68-82 | the geometry draws exactly the vertex, texture-coordinate and index buffers handed to it |
| `Raycast.RaycastVolume.SetBox` | VL_SDK_SRC/src/vlVolume/RaycastVolume.cpp:222-239 | stores the box; vertex buffer becomes the box's corner list; bounds dirty; texture coordinates and index table unchanged; writing the stored box again leaves the vertex buffer unchanged; re-establishes the invariant that the vertex buffer holds the stored box |
| `Raycast.RaycastVolume.GenerateTextureCoordinates` | VL_SDK_SRC/src/vlVolume/RaycastVolume.cpp:198-220 | reports an error exactly when some size component is zero, and then leaves the buffer unchanged; otherwise the buffer becomes the half-texel-inset corner list; nothing else changes |
| `Raycast.RaycastVolume.BindActor` | VL_SDK_SRC/src/vlVolume/RaycastVolume.cpp:180-185 | callback list becomes erase-first-occurrence of this, then append this; LOD 0 becomes the box geometry, other LOD slots unchanged |
| `Raycast.RaycastVolume.UpdateUniforms` | VL_SDK_SRC/src/vlVolume/RaycastVolume.cpp:110-178 | given a GLSL program, the actor's uniform store becomes `Synced` of the old store; the 4-slot loop fills the enable flags and object-space light positions; only the uniform store changes |
| `Raycast.RaycastVolume.OnActorRenderStarted` | VL_SDK_SRC/src/vlVolume/RaycastVolume.cpp:187-196 | for pass > 0, or for a shader without a GLSL program, no uniform changes; otherwise the store is exactly what UpdateUniforms produces |
| `BoxGeometry.Corners` | VL_SDK_SRC/src/vlVolume/RaycastVolume.cpp:232-236 | the corner list of a box has exactly 8 entries |
| `BoxGeometry.BoxVertices` | VL_SDK_SRC/src/vlVolume/RaycastVolume.cpp:226-236 | the vertex list built from a box's min and max corners has 8 entries |
| `BoxGeometry.CornerIndex` | VL_SDK_SRC/src/vlVolume/RaycastVolume.cpp:234-235 | for every choice of high/low side on x, y and z, there is a buffer slot in 0..7 sitting on exactly those sides |
| `BoxGeometry.CornerCodeIsInjective` | VL_SDK_SRC/src/vlVolume/RaycastVolume.cpp:234-235 | different buffer slots differ in the side of some axis, and the slot recovered from a slot's sides is that slot: the order is a bijection with the 8 corners |
| `BoxGeometry.CornersLayout` | VL_SDK_SRC/src/vlVolume/RaycastVolume.cpp:232-236 | the corner list is exactly (x0,y0,z1),(x1,y0,z1),(x1,y1,z1),(x0,y1,z1),(x0,y0,z0),(x1,y0,z0),(x1,y1,z0),(x0,y1,z0); vertex i (i < 4) has z = max, vertex i+4 has z = min, and both share x and y |
| `BoxGeometry.CornersPlaceEveryCorner` | VL_SDK_SRC/src/vlVolume/RaycastVolume.cpp:226-236 | for every box, flat or inverted included, each corner of the box is at the slot that CornerIndex names |
| `BoxGeometry.CornersAreTheBoxCorners` | VL_SDK_SRC/src/vlVolume/RaycastVolume.cpp:226-236 | for a box with min < max on every axis, the 8 entries are pairwise distinct |
| `BoxGeometry.Quad` | VL_SDK_SRC/src/vlVolume/RaycastVolume.cpp:83-86 | each of the 6 quads of the table has 4 indices |
| `BoxGeometry.QuadIndicesInRange` | VL_SDK_SRC/src/vlVolume/RaycastVolume.cpp:83-88 | the index table has 24 entries, each in [0,8) |
| `BoxGeometry.QuadsHaveDistinctVertices` | VL_SDK_SRC/src/vlVolume/RaycastVolume.cpp:83-86 | the 4 vertices of each quad are distinct |
| `BoxGeometry.EveryVertexInThreeQuads` | VL_SDK_SRC/src/vlVolume/RaycastVolume.cpp:83-86 | every vertex 0..7 is used by exactly 3 of the 6 quads |
| `BoxGeometry.FaceQuad` | VL_SDK_SRC/src/vlVolume/RaycastVolume.cpp:83-86 | for each side of each axis, some quad of the table has all 4 vertices on that face of the box, under setBox's corner order |
| `BoxGeometry.QuadsAreTheFaces` | VL_SDK_SRC/src/vlVolume/RaycastVolume.cpp:83-86 | every quad lies on one face of the box, and the six faces are six different quads |
| `BoxGeometry.DefaultTexCoordsFlipZ` | VL_SDK_SRC/src/vlVolume/RaycastVolume.cpp:91-96 | default coordinates are the unit box's vertex list with its two faces swapped: same x/y, z = 1 - vertex z, z = 0 on corners 0-3 and 1 on 4-7; they differ from the unit box's vertex list |
| `BoxGeometry.HalfTexelRange` | VL_SDK_SRC/src/vlVolume/RaycastVolume.cpp:205-207 | for n > 0, half a texel is 1/(2n) and lies in (0, 1/2] |
| `BoxGeometry.InsetTexCoords` | VL_SDK_SRC/src/vlVolume/RaycastVolume.cpp:205-218 | the inset coordinate list has 8 entries |
| `BoxGeometry.InsetTexCoordsLiteral` | VL_SDK_SRC/src/vlVolume/RaycastVolume.cpp:205-218 | the inset list is, entry by entry, (x0,y0,z1)…(x0,y1,z0) with x0 = dx, x1 = 1 - dx, and likewise for y and z |
| `BoxGeometry.InsetTexCoordsBounds` | VL_SDK_SRC/src/vlVolume/RaycastVolume.cpp:205-213 | on each axis with n > 0, every coordinate is 1/(2n) or 1 - 1/(2n), lies in [1/(2n), 1-1/(2n)] and inside (0,1), and is exactly half a texel from the unit vertex in the same slot |
| `BoxGeometry.InsetTexCoordsLayout` | VL_SDK_SRC/src/vlVolume/RaycastVolume.cpp:214-218 | corners 0-3 take z = 1 - dz and 4-7 take z = dz, with i and i+4 sharing x/y; on every axis, a slot takes the high inset value exactly where the unit box's vertex in that slot is 1, so the order is the same as setBox's |
| `CallbackList.Register` | VL_SDK_SRC/src/vlVolume/RaycastVolume.cpp:182-183 | after registration the callback is the last entry of the list |
| `CallbackList.EraseRemovesOne` | VL_SDK_SRC/src/vlVolume/RaycastVolume.cpp:182 | erase removes one occurrence when there is one, and none otherwise (list unchanged); the other callbacks keep their relative order |
| `CallbackList.RegisterOnce` | VL_SDK_SRC/src/vlVolume/RaycastVolume.cpp:182-183 | on a list holding the callback at most once, registration leaves it exactly once, as the last entry, with the other callbacks in their old relative order |
| `CallbackList.RegisterIdempotent` | VL_SDK_SRC/src/vlVolume/RaycastVolume.cpp:182-183 | on such a list, registering twice gives the same list as registering once |
| `UniformSync.WrittenNames` | VL_SDK_SRC/src/vlVolume/RaycastVolume.cpp:120-176 | only uniform names the program declares are ever written |
| `UniformSync.LightPositions` | VL_SDK_SRC/src/vlVolume/RaycastVolume.cpp:124-146 | light_position always carries all 4 slots |
| `UniformSync.LightEnables` | VL_SDK_SRC/src/vlVolume/RaycastVolume.cpp:124-131 | light_enable always carries all 4 slots |
| `UniformSync.SyncedWritesOnlyDeclared` | VL_SDK_SRC/src/vlVolume/RaycastVolume.cpp:120-176 | the keys afterwards are the old keys plus the written names; every other entry is unchanged; light_position and light_enable are written exactly when both are declared; eye_position and eye_look are each written exactly when declared |
| `UniformSync.SyncedLights` | VL_SDK_SRC/src/vlVolume/RaycastVolume.cpp:120-150 | light_enable[i] is 1 exactly when slot i holds a light, and 0 exactly when it is empty; an empty slot has position zero; an occupied slot's position goes through the followed transform if the light has one, otherwise through the camera's inverse view, and then into object space as a point |
| `UniformSync.SyncedWithoutLights` | VL_SDK_SRC/src/vlVolume/RaycastVolume.cpp:124-149 | with no lights, light_enable is [0,0,0,0] and all four positions are zero |
| `UniformSync.SyncedEye` | VL_SDK_SRC/src/vlVolume/RaycastVolume.cpp:152-177 | eye_position is the inverse view's translation, through the inverse world matrix; eye_look is the negated z axis, through the transposed inverse world matrix; with no actor transform both are untransformed; the direction transform differs from the point transform |
| `UniformSync.SyncedIdempotent` | VL_SDK_SRC/src/vlVolume/RaycastVolume.cpp:110-178 | synchronising twice with the same inputs gives the same store as once |

## Left out

- Floating point: 32-bit float coordinates and `0.5f/size` are exact reals. Rounding and the double-to-float casts of the box corners and matrices are not modelled.
- Matrix and vector arithmetic (inverse, transpose, matrix-vector products, `getT`, `getZ`, `xyz`, negation) is uninterpreted. These are symbolic terms, so no algebraic identity between them is modelled. In particular, an actor transform equal to the identity matrix is not simplified away; "no transform" is modelled as an absent transform.
- Negative size components in `generateTextureCoordinates` are accepted as the code accepts them. No bounds are claimed for them: `BoxGeometry.InsetTexCoordsBounds` covers only axes with n > 0.
- `Log::error` is a foreign call. It is modelled as the error message that `GenerateTextureCoordinates` returns.
- GL and library plumbing is reduced to identity and contents:
  - `Geometry::setVertexArray`, `setTexCoordArray` and `drawCalls()->push_back` become the arrays the `Geometry` object holds.
  - `DrawElementsUInt(PT_QUADS)` becomes its index buffer; the primitive type is not represented.
  - `memcpy` becomes element writes.
- `getUniformLocation(name) != -1` is modelled as membership of `name` in the program's declared uniform names. `gocUniform(name)->setUniform…` is modelled as a map update of the actor's uniform store. Uniform types other than the three written here are not represented.
- `VL_CHECK(glsl)` in `updateUniforms` is modelled as the precondition that the shader has a GLSL program; `onActorRenderStarted` establishes it.
- The `clock` and `Renderable*` parameters are left out. `onActorRenderStarted` forwards them to `updateUniforms`, and only the base `updateUniforms` leaves them unused. The unused `has_lights` local is left out too.
- `OnActorRenderStarted`: delegation is to the base `updateUniforms`. `updateUniforms` is a hook that subclasses may override (`RaycastVolume.cpp:102`). Those overrides, and the clock and renderable they would receive, are not modelled.
- `RaycastVolume.hpp`, `Collection.hpp`, `Shader.hpp`, `Vector3.hpp`, `Matrix4.hpp` and `Geometry.hpp` are not part of this model. The model assumes the following about them:
  - `Collection::erase` removes the first matching entry.
  - `Shader::getLight(i)` gives the light in slot `i`, or null beyond the last slot.
  - A default `fvec3` is the zero vector, and a default `fmat4` is the identity.
  - A new `Geometry` starts with its bounds dirty. `setBox` sets the flag anyway during construction.
- Only the actor's callback list, LOD slots, transform and uniform store are modelled. The callback list compares entries by identity, as the source compares pointers.
- Concurrency: none. All operations are sequential, as in the source.
