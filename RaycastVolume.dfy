/** RaycastVolume: the render callback that owns a volume's bounding-box mesh,
    registers itself on an actor and, before the actor's first rendering pass,
    writes the light and eye uniforms of the raycasting program. */
module Raycast {
  import opened BoxGeometry
  import opened CallbackList
  import opened UniformSync

  /** The box mesh: a vertex buffer, a texture-coordinate buffer, the quad index
      buffer of its draw call, and the flag that asks for its bounds to be
      recomputed. */
  class Geometry {
    const vertexArray: array<Vec3>
    const texCoordArray: array<Vec3>
    const indices: array<int>
    var boundsDirty: bool

    constructor (vertexArray: array<Vec3>, texCoordArray: array<Vec3>, indices: array<int>)
      ensures this.vertexArray == vertexArray && this.texCoordArray == texCoordArray && this.indices == indices
      ensures boundsDirty
    {
      this.vertexArray := vertexArray;
      this.texCoordArray := texCoordArray;
      this.indices := indices;
      boundsDirty := true;
    }
  }

  /** The parts of an actor this core touches: its ordered render-callback list,
      its level-of-detail slots, the world matrix of its transform (if it has
      one), and its store of uniform values. */
  class Actor {
    var actorEventCallbacks: seq<object>
    var lods: map<int, Geometry>
    var transform: Option<Mat>
    var uniforms: UniformStore
  }

  /** The diagnostic logged when a texture size does not describe a 3D image. */
  const TextureSizeError: string := "RaycastVolume::generateTextureCoordinates(): failed! The size passed does not represent a 3D image.\n"

  class RaycastVolume {
    const geometry: Geometry
    const vertCoord: array<Vec3>
    const texCoord: array<Vec3>
    var box: AABB

    /** The buffers have the sizes the mesh needs, are the ones the geometry
        draws, and the index buffer holds the quad table. */
    ghost predicate Buffers()
      reads this, geometry.indices
    {
      && vertCoord.Length == 8 && texCoord.Length == 8 && geometry.indices.Length == 24
      && vertCoord != texCoord
      && geometry.vertexArray == vertCoord && geometry.texCoordArray == texCoord
      && geometry.indices[..] == QuadIndices
    }

    /** The object invariant: in addition, the vertex buffer holds the stored box. */
    ghost predicate Valid()
      reads this, vertCoord, geometry.indices
    {
      Buffers() && vertCoord[..] == BoxVertices(box)
    }

    /** The box is the unit box, the texture coordinates are the default ones and
        the vertex buffer holds the unit box. */
    constructor ()
      ensures Valid()
      ensures fresh(geometry) && fresh(vertCoord) && fresh(texCoord) && fresh(geometry.indices)
      ensures box == UnitBox
      ensures vertCoord[..] == BoxVertices(UnitBox)
      ensures texCoord[..] == DefaultTexCoords
      ensures geometry.boundsDirty
    {
      var vc := new Vec3[8];
      var tc := new Vec3[8];
      var de := new int[24](k => if 0 <= k < |QuadIndices| then QuadIndices[k] else 0);
      vertCoord := vc;
      texCoord := tc;
      geometry := new Geometry(vc, tc, de);
      new;
      assert de[..] == QuadIndices;
      var texc := [
        Vec3(0.0, 0.0, 0.0), Vec3(1.0, 0.0, 0.0), Vec3(1.0, 1.0, 0.0), Vec3(0.0, 1.0, 0.0),
        Vec3(0.0, 0.0, 1.0), Vec3(1.0, 0.0, 1.0), Vec3(1.0, 1.0, 1.0), Vec3(0.0, 1.0, 1.0)];
      forall i | 0 <= i < 8 {
        texCoord[i] := texc[i];
      }
      assert texCoord[..] == texc;
      SetBox(UnitBox);
    }

    /** Stores the box, writes its corners into the vertex buffer and marks the
        bounds dirty; the texture coordinates and the index table are untouched,
        and setting the stored box again leaves the vertex buffer as it was. */
    method SetBox(b: AABB)
      requires Buffers()
      modifies this`box, vertCoord, geometry`boundsDirty
      ensures Valid()
      ensures box == b
      ensures vertCoord[..] == BoxVertices(b)
      ensures geometry.boundsDirty
      ensures texCoord[..] == old(texCoord[..])
      ensures geometry.indices[..] == old(geometry.indices[..])
      ensures old(Valid()) && old(box) == b ==> vertCoord[..] == old(vertCoord[..])
    {
      box := b;
      var x0, y0, z0 := b.minCorner.x, b.minCorner.y, b.minCorner.z;
      var x1, y1, z1 := b.maxCorner.x, b.maxCorner.y, b.maxCorner.z;
      var boxVerts := [
        Vec3(x0, y0, z1), Vec3(x1, y0, z1), Vec3(x1, y1, z1), Vec3(x0, y1, z1),
        Vec3(x0, y0, z0), Vec3(x1, y0, z0), Vec3(x1, y1, z0), Vec3(x0, y1, z0)];
      CornersLayout(b.minCorner, b.maxCorner);
      forall i | 0 <= i < 8 {
        vertCoord[i] := boxVerts[i];
      }
      assert vertCoord[..] == boxVerts;
      geometry.boundsDirty := true;
    }

    /** For a resolution with no zero component, writes the half-texel-inset
        corners into the texture-coordinate buffer; otherwise reports an error
        and changes nothing. */
    method GenerateTextureCoordinates(size: IVec3) returns (error: Option<string>)
      requires Valid()
      modifies texCoord
      ensures Valid()
      ensures error.Some? <==> Degenerate(size)
      ensures texCoord[..] == if Degenerate(size) then old(texCoord[..]) else InsetTexCoords(size)
    {
      if size.x == 0 || size.y == 0 || size.z == 0 {
        return Some(TextureSizeError);
      }
      var dx := HalfTexel(size.x);
      var dy := HalfTexel(size.y);
      var dz := HalfTexel(size.z);
      var x0, x1 := 0.0 + dx, 1.0 - dx;
      var y0, y1 := 0.0 + dy, 1.0 - dy;
      var z0, z1 := 0.0 + dz, 1.0 - dz;
      var texc := [
        Vec3(x0, y0, z1), Vec3(x1, y0, z1), Vec3(x1, y1, z1), Vec3(x0, y1, z1),
        Vec3(x0, y0, z0), Vec3(x1, y0, z0), Vec3(x1, y1, z0), Vec3(x0, y1, z0)];
      InsetTexCoordsLiteral(size);
      forall i | 0 <= i < 8 {
        texCoord[i] := texc[i];
      }
      assert texCoord[..] == texc;
      error := None;
    }

    /** Moves this callback to the end of the actor's callback list (removing an
        earlier registration of it) and installs the box mesh as LOD 0. */
    method BindActor(actor: Actor)
      modifies actor`actorEventCallbacks, actor`lods
      ensures actor.actorEventCallbacks == Register(old(actor.actorEventCallbacks), this)
      ensures actor.lods == old(actor.lods)[0 := geometry]
    {
      actor.actorEventCallbacks := Erase(actor.actorEventCallbacks, this);
      actor.actorEventCallbacks := actor.actorEventCallbacks + [this];
      actor.lods := actor.lods[0 := geometry];
    }

    /** Writes the light and eye uniforms the shader's program declares into the
        actor's uniform store. */
    method UpdateUniforms(actor: Actor, camera: Camera, shader: Shader)
      requires shader.glslProgram.Some?
      modifies actor`uniforms
      ensures actor.uniforms == Synced(old(actor.uniforms), actor.transform, camera, shader)
    {
      var glsl := shader.glslProgram.value;
      var worldMatrix := actor.transform;
      var invMat := Identity;
      if worldMatrix.Some? {
        invMat := Inverse(worldMatrix.value);
      }

      if LightPositionName in glsl.uniformNames && LightEnableName in glsl.uniformNames {
        var lightEnable := new int[LightSlots](_ => 0);
        var lightPosition := new Vec[LightSlots](_ => Zero);
        for i := 0 to LightSlots
          modifies lightEnable, lightPosition
          invariant forall k :: 0 <= k < i ==> lightEnable[k] == LightEnable(shader, k)
          invariant forall k :: 0 <= k < i ==> lightPosition[k] == LightPosition(worldMatrix, camera, shader, k)
          invariant forall k :: i <= k < LightSlots ==> lightEnable[k] == 0 && lightPosition[k] == Zero
        {
          var light := GetLight(shader, i);
          lightEnable[i] := if light.Some? then 1 else 0;
          if light.Some? {
            if light.value.followedTransform.Some? {
              lightPosition[i] := Mul(light.value.followedTransform.value, Xyz(light.value.position));
            } else {
              lightPosition[i] := Xyz(Mul(camera.inverseViewMatrix, light.value.position));
            }
            if worldMatrix.Some? {
              lightPosition[i] := Mul(invMat, lightPosition[i]);
            }
          }
        }
        assert lightPosition[..] == LightPositions(worldMatrix, camera, shader);
        assert lightEnable[..] == LightEnables(shader);
        actor.uniforms := actor.uniforms[LightPositionName := Vec3Array(lightPosition[..])];
        actor.uniforms := actor.uniforms[LightEnableName := IntArray(lightEnable[..])];
      }
      assert actor.uniforms == WithLights(old(actor.uniforms), worldMatrix, camera, shader);

      if EyePositionName in glsl.uniformNames {
        var eye := Translation(camera.inverseViewMatrix);
        if worldMatrix.Some? {
          eye := Mul(invMat, eye);
        }
        actor.uniforms := actor.uniforms[EyePositionName := Vec3Value(eye)];
      }
      assert actor.uniforms == WithEyePosition(WithLights(old(actor.uniforms), worldMatrix, camera, shader), worldMatrix, camera, shader);

      if EyeLookName in glsl.uniformNames {
        var look := Neg(ZAxis(camera.inverseViewMatrix));
        if worldMatrix.Some? {
          look := Mul(Transposed(Inverse(worldMatrix.value)), look);
        }
        actor.uniforms := actor.uniforms[EyeLookName := Vec3Value(look)];
      }
    }

    /** Before the first pass, and only when the shader has a GLSL program,
        synchronises the uniforms; in every other case writes nothing. */
    method OnActorRenderStarted(actor: Actor, camera: Camera, shader: Shader, pass: int)
      modifies actor`uniforms
      ensures pass > 0 || shader.glslProgram.None? ==> actor.uniforms == old(actor.uniforms)
      ensures pass <= 0 && shader.glslProgram.Some? ==>
        actor.uniforms == Synced(old(actor.uniforms), actor.transform, camera, shader)
    {
      if pass > 0 {
        return;
      }
      if shader.glslProgram.Some? {
        UpdateUniforms(actor, camera, shader);
      }
    }
  }
}
