/** The uniform values that updateUniforms feeds to a raycasting GLSL program.
    Matrix and vector arithmetic is not modelled: matrices and vectors are
    symbolic terms that record which operations formed them, so two values are
    equal exactly when they are built the same way from the same inputs. */
module UniformSync {

  datatype Option<T> = None | Some(value: T)

  /** A 4x4 matrix: an input known only by identity, the identity matrix, or the
      inverse or the transpose of another matrix. */
  datatype Mat = Matrix(id: nat) | Identity | Inverse(of: Mat) | Transposed(of: Mat)

  /** A vector: an input known only by identity, the zero vector, the first three
      components of a vector, a matrix applied to a vector, or the translation
      column, the z basis column or the negation of a vector. */
  datatype Vec =
    | Vector(id: nat)
    | Zero
    | Xyz(v: Vec)
    | Mul(m: Mat, v: Vec)
    | Translation(m: Mat)
    | ZAxis(m: Mat)
    | Neg(v: Vec)

  /** A light: its homogeneous position, and the transform it follows if any. */
  datatype Light = Light(position: Vec, followedTransform: Option<Mat>)

  datatype Camera = Camera(inverseViewMatrix: Mat)

  /** A linked GLSL program, known by the uniform names it declares (those for
      which a uniform location exists). */
  datatype GLSLProgram = GLSLProgram(uniformNames: set<string>)

  /** A shader: its GLSL program if one is bound, and its light slots. */
  datatype Shader = Shader(glslProgram: Option<GLSLProgram>, lights: seq<Option<Light>>)

  /** A uniform value as stored on an actor. */
  datatype Uniform = Vec3Array(vs: seq<Vec>) | IntArray(ns: seq<int>) | Vec3Value(v: Vec)

  type UniformStore = map<string, Uniform>

  const LightPositionName: string := "light_position"
  const LightEnableName: string := "light_enable"
  const EyePositionName: string := "eye_position"
  const EyeLookName: string := "eye_look"

  /** The number of light slots the program reads. */
  const LightSlots: int := 4

  /** The light in slot i of the shader; no light beyond its slots. */
  function GetLight(shader: Shader, i: int): Option<Light>
  {
    if 0 <= i < |shader.lights| then shader.lights[i] else None
  }

  /** A light's world-space position: through its followed transform, or else
      through the camera's inverse view matrix. */
  function WorldLightPosition(light: Light, camera: Camera): Vec
  {
    match light.followedTransform
    case Some(m) => Mul(m, Xyz(light.position))
    case None => Xyz(Mul(camera.inverseViewMatrix, light.position))
  }

  /** A world-space point in the actor's object space: the inverse world matrix
      when the actor has a transform, nothing otherwise. */
  function ToObjectPoint(worldMatrix: Option<Mat>, p: Vec): Vec
  {
    match worldMatrix
    case Some(w) => Mul(Inverse(w), p)
    case None => p
  }

  /** A world-space direction in object space: the transpose of the inverse
      world matrix when the actor has a transform, nothing otherwise. */
  function ToObjectDirection(worldMatrix: Option<Mat>, d: Vec): Vec
  {
    match worldMatrix
    case Some(w) => Mul(Transposed(Inverse(w)), d)
    case None => d
  }

  /** The value of light_enable[i]. */
  function LightEnable(shader: Shader, i: int): int
  {
    if GetLight(shader, i).Some? then 1 else 0
  }

  /** The value of light_position[i]; an empty slot keeps the zero vector. */
  function LightPosition(worldMatrix: Option<Mat>, camera: Camera, shader: Shader, i: int): Vec
  {
    match GetLight(shader, i)
    case None => Zero
    case Some(light) => ToObjectPoint(worldMatrix, WorldLightPosition(light, camera))
  }

  /** The four values of light_position. */
  function LightPositions(worldMatrix: Option<Mat>, camera: Camera, shader: Shader): (r: seq<Vec>)
    ensures |r| == LightSlots
  {
    seq(LightSlots, i => LightPosition(worldMatrix, camera, shader, i))
  }

  /** The four values of light_enable. */
  function LightEnables(shader: Shader): (r: seq<int>)
    ensures |r| == LightSlots
  {
    seq(LightSlots, i => LightEnable(shader, i))
  }

  function EyePosition(worldMatrix: Option<Mat>, camera: Camera): Vec
  {
    ToObjectPoint(worldMatrix, Translation(camera.inverseViewMatrix))
  }

  function EyeLook(worldMatrix: Option<Mat>, camera: Camera): Vec
  {
    ToObjectDirection(worldMatrix, Neg(ZAxis(camera.inverseViewMatrix)))
  }

  /** Whether the program lets the light uniforms be written: it must declare both. */
  predicate WritesLights(p: GLSLProgram)
  {
    LightPositionName in p.uniformNames && LightEnableName in p.uniformNames
  }

  /** The names the synchronisation writes for a program. */
  function WrittenNames(p: GLSLProgram): (names: set<string>)
    ensures names <= p.uniformNames
  {
    (if WritesLights(p) then {LightPositionName, LightEnableName} else {})
    + (if EyePositionName in p.uniformNames then {EyePositionName} else {})
    + (if EyeLookName in p.uniformNames then {EyeLookName} else {})
  }

  /** The store after the light block: both light uniforms, all four slots. */
  function WithLights(store: UniformStore, worldMatrix: Option<Mat>, camera: Camera, shader: Shader): UniformStore
    requires shader.glslProgram.Some?
  {
    if WritesLights(shader.glslProgram.value) then
      store[LightPositionName := Vec3Array(LightPositions(worldMatrix, camera, shader))]
           [LightEnableName := IntArray(LightEnables(shader))]
    else store
  }

  function WithEyePosition(store: UniformStore, worldMatrix: Option<Mat>, camera: Camera, shader: Shader): UniformStore
    requires shader.glslProgram.Some?
  {
    if EyePositionName in shader.glslProgram.value.uniformNames then
      store[EyePositionName := Vec3Value(EyePosition(worldMatrix, camera))]
    else store
  }

  function WithEyeLook(store: UniformStore, worldMatrix: Option<Mat>, camera: Camera, shader: Shader): UniformStore
    requires shader.glslProgram.Some?
  {
    if EyeLookName in shader.glslProgram.value.uniformNames then
      store[EyeLookName := Vec3Value(EyeLook(worldMatrix, camera))]
    else store
  }

  /** The uniform store after synchronising with a shader that has a program. */
  function Synced(store: UniformStore, worldMatrix: Option<Mat>, camera: Camera, shader: Shader): UniformStore
    requires shader.glslProgram.Some?
  {
    WithEyeLook(WithEyePosition(WithLights(store, worldMatrix, camera, shader), worldMatrix, camera, shader), worldMatrix, camera, shader)
  }

  /** Only the declared names are written, light_position and light_enable only
      together, and every other entry of the store is left as it was. */
  lemma SyncedWritesOnlyDeclared(store: UniformStore, worldMatrix: Option<Mat>, camera: Camera, shader: Shader)
    requires shader.glslProgram.Some?
    ensures Synced(store, worldMatrix, camera, shader).Keys == store.Keys + WrittenNames(shader.glslProgram.value)
    ensures forall k :: k in store && k !in WrittenNames(shader.glslProgram.value) ==>
      Synced(store, worldMatrix, camera, shader)[k] == store[k]
    ensures LightPositionName in WrittenNames(shader.glslProgram.value) <==> WritesLights(shader.glslProgram.value)
    ensures LightEnableName in WrittenNames(shader.glslProgram.value) <==> WritesLights(shader.glslProgram.value)
    ensures EyePositionName in WrittenNames(shader.glslProgram.value) <==> EyePositionName in shader.glslProgram.value.uniformNames
    ensures EyeLookName in WrittenNames(shader.glslProgram.value) <==> EyeLookName in shader.glslProgram.value.uniformNames
  {
  }

  /** When the program declares both light uniforms, light_enable[i] is 1 exactly
      when slot i holds a light (0 otherwise); an empty slot keeps the zero
      position, and a light's position is its followed-transform position or its
      camera-relative position, taken into object space as a point. */
  lemma SyncedLights(store: UniformStore, worldMatrix: Option<Mat>, camera: Camera, shader: Shader)
    requires shader.glslProgram.Some? && WritesLights(shader.glslProgram.value)
    ensures var r := Synced(store, worldMatrix, camera, shader);
      && LightPositionName in r && r[LightPositionName].Vec3Array? && |r[LightPositionName].vs| == LightSlots
      && LightEnableName in r && r[LightEnableName].IntArray? && |r[LightEnableName].ns| == LightSlots
      && (forall i :: 0 <= i < LightSlots ==>
            && (r[LightEnableName].ns[i] == 1 <==> GetLight(shader, i).Some?)
            && (r[LightEnableName].ns[i] == 0 <==> GetLight(shader, i).None?))
      && (forall i :: 0 <= i < LightSlots && GetLight(shader, i).None? ==> r[LightPositionName].vs[i] == Zero)
      && (forall i :: 0 <= i < LightSlots && GetLight(shader, i).Some? ==>
            var light := GetLight(shader, i).value;
            r[LightPositionName].vs[i] == ToObjectPoint(worldMatrix,
              if light.followedTransform.Some? then Mul(light.followedTransform.value, Xyz(light.position))
              else Xyz(Mul(camera.inverseViewMatrix, light.position))))
  {
  }

  /** With no light in any slot every flag is 0 and every position is zero. */
  lemma SyncedWithoutLights(store: UniformStore, worldMatrix: Option<Mat>, camera: Camera, shader: Shader)
    requires shader.glslProgram.Some? && WritesLights(shader.glslProgram.value)
    requires forall i :: 0 <= i < |shader.lights| ==> shader.lights[i].None?
    ensures Synced(store, worldMatrix, camera, shader)[LightEnableName] == IntArray([0, 0, 0, 0])
    ensures Synced(store, worldMatrix, camera, shader)[LightPositionName] == Vec3Array([Zero, Zero, Zero, Zero])
  {
    SyncedLights(store, worldMatrix, camera, shader);
    var r := Synced(store, worldMatrix, camera, shader);
    assert r[LightEnableName].ns == [0, 0, 0, 0];
    assert r[LightPositionName].vs == [Zero, Zero, Zero, Zero];
  }

  /** eye_position is the camera's translation taken into object space as a
      point; eye_look is the negated z axis of the camera taken into object space
      as a direction, through the transposed inverse, which differs from the
      point transform. Without an actor transform both are the camera's own. */
  lemma SyncedEye(store: UniformStore, worldMatrix: Option<Mat>, camera: Camera, shader: Shader)
    requires shader.glslProgram.Some?
    ensures var r := Synced(store, worldMatrix, camera, shader);
      var v := camera.inverseViewMatrix;
      && (EyePositionName in shader.glslProgram.value.uniformNames ==>
            r[EyePositionName] == Vec3Value(if worldMatrix.Some? then Mul(Inverse(worldMatrix.value), Translation(v)) else Translation(v)))
      && (EyeLookName in shader.glslProgram.value.uniformNames ==>
            r[EyeLookName] == Vec3Value(if worldMatrix.Some? then Mul(Transposed(Inverse(worldMatrix.value)), Neg(ZAxis(v))) else Neg(ZAxis(v))))
    ensures worldMatrix.Some? ==>
      ToObjectDirection(worldMatrix, Neg(ZAxis(camera.inverseViewMatrix))) != ToObjectPoint(worldMatrix, Neg(ZAxis(camera.inverseViewMatrix)))
  {
  }

  /** Synchronising twice with the same inputs gives the same store as once. */
  lemma SyncedIdempotent(store: UniformStore, worldMatrix: Option<Mat>, camera: Camera, shader: Shader)
    requires shader.glslProgram.Some?
    ensures Synced(Synced(store, worldMatrix, camera, shader), worldMatrix, camera, shader) == Synced(store, worldMatrix, camera, shader)
  {
  }
}
