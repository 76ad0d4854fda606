/** The client's messages as wire trees, field for field. Singles travel as their
    32-bit patterns. */
module Requests {

  import opened Options
  import opened MessagePack
  import opened WireValues
  import opened Responses

  type Word = n: nat | n < 0x1_0000_0000

  // ---------------------------------------------------------------- the wire types

  datatype Vec2 = Vec2(x: Word, y: Word)
  datatype Vec3 = Vec3(x: Word, y: Word, z: Word)
  datatype Vec4 = Vec4(x: Word, y: Word, z: Word, w: Word)
  datatype Triple = Triple(a: Word, b: Word, c: Word)
  datatype Rows = Rows(r0: Vec4, r1: Vec4, r2: Vec4)

  datatype Kind = KMesh | KCurves | KInstance | KMaterial | KLight | KCamera | KEnvironment | KSettings
  datatype ColorSpace = Srgb | Linear
  datatype Channel = R | G | B | A
  datatype TextureRef = TextureRef(path: Bytes, colorSpace: Option<ColorSpace>, channel: Option<Channel>)
  datatype Reset<T> = Clear | Set(value: T)
  datatype Texturable<T> = Constant(value: T) | Texture(image: TextureRef)

  datatype Transform = Trs(translate: Vec3, rotateDegrees: Vec3, scale: Vec3) | Matrix(rows: Rows)
  datatype MeshSource =
    | Inline(positions: seq<Vec3>, normals: Option<seq<Vec3>>, uvs: Option<seq<Vec2>>, triangles: seq<Triple>)
    | Ply(path: Bytes)
  datatype WidthInterpolation = PerBatch | PerCurve | Varying | Vertex
  datatype CurveType = Straight | Cubic
  datatype CurveBasis = Bezier | BSpline | CatmullRom
  datatype CurveWrap = Nonperiodic | Pinned | Periodic
  datatype Widths = Widths(values: seq<Word>, interpolation: WidthInterpolation)
  datatype CurvesSource =
    | Cells(points: seq<Vec3>, counts: seq<Word>, widths: Option<Widths>, curveType: CurveType, basis: CurveBasis, wrap: CurveWrap)
    | Hair(path: Bytes)
  datatype Light = Distant(direction: Vec3, irradiance: Vec3) | Point(position: Vec3, intensity: Vec3)

  type OptWord = Option<Word>
  type Color = Option<Texturable<Vec3>>
  type Scalar = Option<Texturable<Word>>

  datatype MaterialPatch = MaterialPatch(
    name: Bytes,
    baseColor: Color, baseDiffuseRoughness: OptWord, baseMetalness: Scalar,
    specularWeight: OptWord, specularRoughness: Scalar, specularIor: OptWord,
    transmissionWeight: OptWord, transmissionColor: Option<Vec3>, transmissionDepth: OptWord,
    transmissionScatter: Option<Vec3>, transmissionScatterAnisotropy: OptWord,
    subsurfaceWeight: Scalar, subsurfaceColor: Color, subsurfaceRadius: Scalar,
    subsurfaceRadiusScale: Color, subsurfaceScatterAnisotropy: Scalar,
    coatWeight: OptWord, coatColor: Option<Vec3>, coatRoughness: OptWord, coatIor: OptWord, coatDarkening: OptWord,
    fuzzWeight: OptWord, fuzzColor: Option<Vec3>, fuzzRoughness: OptWord,
    emissionLuminance: OptWord, emissionColor: Color,
    geometryOpacity: Scalar, geometryThinWalled: Option<bool>, geometryNormal: Option<Reset<TextureRef>>)

  datatype Op =
    | MeshOp(name: Bytes, mesh: Option<MeshSource>)
    | CurvesOp(name: Bytes, curves: Option<CurvesSource>)
    | InstanceOp(name: Bytes, placedMesh: Option<Bytes>, placedCurves: Option<Bytes>, material: Option<Bytes>,
                 transforms: Option<seq<Transform>>, cameraVisible: Option<bool>)
    | MaterialOp(patch: MaterialPatch)
    | LightOp(name: Bytes, light: Option<Light>)
    | CameraOp(name: Bytes, position: Option<Vec3>, lookAt: Option<Vec3>, up: Option<Vec3>, vfovDegrees: OptWord,
               focusDistance: Option<Reset<Word>>, apertureRadius: OptWord)
    | EnvironmentOp(name: Bytes, path: Option<Reset<Bytes>>, tint: Option<Vec3>, transform: Option<Transform>)
    | SettingsOp(name: Bytes, spp: OptWord, noiseThreshold: Option<Reset<Word>>, maxBounces: OptWord, denoise: Option<bool>, seed: OptWord)
    | Remove(kind: Kind, name: Bytes)

  datatype Camera = Camera(position: Vec3, lookAt: Vec3, up: Vec3, vfovDegrees: Word, focusDistance: OptWord, apertureRadius: Word)

  datatype Request =
    | Hello(protocol: Word, token: Bytes)
    | Replace(changes: seq<Op>)
    | Apply(changes: seq<Op>)
    | SetCamera(camera: Camera)
    | Resize(width: Word, height: Word)
    | Ping

  // ---------------------------------------------------------------- combinators

  /** Absent is nil. */
  function Opt<T>(f: T -> Wire, o: Option<T>): Wire { if o.None? then Nil else f(o.value) }

  function Vec<T>(f: T -> Wire, s: seq<T>): Wire { Items(seq(|s|, i requires 0 <= i < |s| => f(s[i]))) }

  function Resettable<T>(f: T -> Wire, r: Reset<T>): Wire {
    if r.Set? then Variant(Ascii("Set"), f(r.value)) else Text(Ascii("Clear"))
  }

  function Textured<T>(f: T -> Wire, t: Texturable<T>): Wire {
    if t.Constant? then Variant(Ascii("Constant"), f(t.value)) else Variant(Ascii("Texture"), OfTexture(t.image))
  }

  // ---------------------------------------------------------------- leaves

  function OfFloat(n: Word): Wire { Single(n) }

  function OfUInt(n: Word): Wire { Number(n) }

  function OfBool(b: bool): Wire { Bool(b) }

  function OfText(s: Bytes): Wire { Text(s) }

  function OfVec2(v: Vec2): Wire { Items([Single(v.x), Single(v.y)]) }

  function OfVec3(v: Vec3): Wire { Items([Single(v.x), Single(v.y), Single(v.z)]) }

  function OfVec4(v: Vec4): Wire { Items([Single(v.x), Single(v.y), Single(v.z), Single(v.w)]) }

  function OfTriple(t: Triple): Wire { Items([Number(t.a), Number(t.b), Number(t.c)]) }

  function OfRows(r: Rows): Wire { Items([OfVec4(r.r0), OfVec4(r.r1), OfVec4(r.r2)]) }

  predicate Plain(s: string) { forall i :: 0 <= i < |s| ==> s[i] < 128 as char }

  function Name(s: string): Wire
    requires Plain(s)
  {
    Text(Ascii(s))
  }

  function ColorSpaceName(c: ColorSpace): string { if c.Srgb? then "Srgb" else "Linear" }

  function ChannelName(c: Channel): string { match c case R => "R" case G => "G" case B => "B" case A => "A" }

  function KindName(k: Kind): string {
    match k
    case KMesh => "Mesh"
    case KCurves => "Curves"
    case KInstance => "Instance"
    case KMaterial => "Material"
    case KLight => "Light"
    case KCamera => "Camera"
    case KEnvironment => "Environment"
    case KSettings => "Settings"
  }

  function InterpolationName(w: WidthInterpolation): string {
    match w case PerBatch => "Constant" case PerCurve => "Uniform" case Varying => "Varying" case Vertex => "Vertex"
  }

  function CurveTypeName(c: CurveType): string { if c.Straight? then "Linear" else "Cubic" }

  function BasisName(b: CurveBasis): string {
    match b case Bezier => "Bezier" case BSpline => "BSpline" case CatmullRom => "CatmullRom"
  }

  function WrapName(w: CurveWrap): string {
    match w case Nonperiodic => "Nonperiodic" case Pinned => "Pinned" case Periodic => "Periodic"
  }

  function OfColorSpace(c: ColorSpace): Wire { Name(ColorSpaceName(c)) }

  function OfChannel(c: Channel): Wire { Name(ChannelName(c)) }

  function OfKind(k: Kind): Wire { Name(KindName(k)) }

  function OfInterpolation(w: WidthInterpolation): Wire { Name(InterpolationName(w)) }

  function OfCurveType(c: CurveType): Wire { Name(CurveTypeName(c)) }

  function OfBasis(b: CurveBasis): Wire { Name(BasisName(b)) }

  function OfWrap(w: CurveWrap): Wire { Name(WrapName(w)) }

  function OfTexture(t: TextureRef): Wire {
    Items([Text(t.path), Opt(OfColorSpace, t.colorSpace), Opt(OfChannel, t.channel)])
  }

  // ---------------------------------------------------------------- scene types

  function OfTransform(t: Transform): Wire {
    match t
    case Trs(translate, rotate, scale) => Variant(Ascii("Trs"), Items([OfVec3(translate), OfVec3(rotate), OfVec3(scale)]))
    case Matrix(rows) => Variant(Ascii("Matrix"), OfRows(rows))
  }

  function OfVec3s(s: seq<Vec3>): Wire { Vec(OfVec3, s) }

  function OfVec2s(s: seq<Vec2>): Wire { Vec(OfVec2, s) }

  function OfTransforms(s: seq<Transform>): Wire { Vec(OfTransform, s) }

  function OfMesh(m: MeshSource): Wire {
    match m
    case Inline(positions, normals, uvs, triangles) =>
      Variant(Ascii("Inline"), Items([OfVec3s(positions), Opt(OfVec3s, normals), Opt(OfVec2s, uvs), Vec(OfTriple, triangles)]))
    case Ply(path) => Variant(Ascii("Ply"), Items([Text(path)]))
  }

  function OfWidths(w: Widths): Wire { Items([Vec(OfFloat, w.values), OfInterpolation(w.interpolation)]) }

  function OfCurves(c: CurvesSource): Wire {
    match c
    case Cells(points, counts, widths, curveType, basis, wrap) =>
      Variant(Ascii("Inline"), Items([OfVec3s(points), Vec(OfUInt, counts), Opt(OfWidths, widths),
                                      OfCurveType(curveType), OfBasis(basis), OfWrap(wrap)]))
    case Hair(path) => Variant(Ascii("Hair"), Items([Text(path)]))
  }

  function OfLight(l: Light): Wire {
    match l
    case Distant(direction, irradiance) => Variant(Ascii("Distant"), Items([OfVec3(direction), OfVec3(irradiance)]))
    case Point(position, intensity) => Variant(Ascii("Point"), Items([OfVec3(position), OfVec3(intensity)]))
  }

  function OfColor(t: Texturable<Vec3>): Wire { Textured(OfVec3, t) }

  function OfScalar(t: Texturable<Word>): Wire { Textured(OfFloat, t) }

  function OfResetFloat(r: Reset<Word>): Wire { Resettable(OfFloat, r) }

  function OfResetText(r: Reset<Bytes>): Wire { Resettable(OfText, r) }

  function OfResetTexture(r: Reset<TextureRef>): Wire { Resettable(OfTexture, r) }

  function BaseFields(m: MaterialPatch): (s: seq<Wire>)
    ensures |s| == 3
  {
    [Opt(OfColor, m.baseColor), Opt(OfFloat, m.baseDiffuseRoughness), Opt(OfScalar, m.baseMetalness)]
  }

  function SpecularFields(m: MaterialPatch): (s: seq<Wire>)
    ensures |s| == 3
  {
    [Opt(OfFloat, m.specularWeight), Opt(OfScalar, m.specularRoughness), Opt(OfFloat, m.specularIor)]
  }

  function TransmissionFields(m: MaterialPatch): (s: seq<Wire>)
    ensures |s| == 5
  {
    [Opt(OfFloat, m.transmissionWeight), Opt(OfVec3, m.transmissionColor), Opt(OfFloat, m.transmissionDepth), Opt(OfVec3, m.transmissionScatter), Opt(OfFloat, m.transmissionScatterAnisotropy)]
  }

  function SubsurfaceFields(m: MaterialPatch): (s: seq<Wire>)
    ensures |s| == 5
  {
    [Opt(OfScalar, m.subsurfaceWeight), Opt(OfColor, m.subsurfaceColor), Opt(OfScalar, m.subsurfaceRadius), Opt(OfColor, m.subsurfaceRadiusScale), Opt(OfScalar, m.subsurfaceScatterAnisotropy)]
  }

  function CoatFields(m: MaterialPatch): (s: seq<Wire>)
    ensures |s| == 5
  {
    [Opt(OfFloat, m.coatWeight), Opt(OfVec3, m.coatColor), Opt(OfFloat, m.coatRoughness), Opt(OfFloat, m.coatIor), Opt(OfFloat, m.coatDarkening)]
  }

  function FuzzFields(m: MaterialPatch): (s: seq<Wire>)
    ensures |s| == 3
  {
    [Opt(OfFloat, m.fuzzWeight), Opt(OfVec3, m.fuzzColor), Opt(OfFloat, m.fuzzRoughness)]
  }

  function EmissionFields(m: MaterialPatch): (s: seq<Wire>)
    ensures |s| == 2
  {
    [Opt(OfFloat, m.emissionLuminance), Opt(OfColor, m.emissionColor)]
  }

  function GeometryFields(m: MaterialPatch): (s: seq<Wire>)
    ensures |s| == 3
  {
    [Opt(OfScalar, m.geometryOpacity), Opt(OfBool, m.geometryThinWalled), Opt(OfResetTexture, m.geometryNormal)]
  }

  function MaterialFields(m: MaterialPatch): (s: seq<Wire>)
    ensures |s| == 30
  {
    [Text(m.name)] + (BaseFields(m) + (SpecularFields(m) + (TransmissionFields(m) + (SubsurfaceFields(m)
      + (CoatFields(m) + (FuzzFields(m) + (EmissionFields(m) + GeometryFields(m))))))))
  }

  function OpName(op: Op): string {
    match op
    case MeshOp(_, _) => "Mesh"
    case CurvesOp(_, _) => "Curves"
    case InstanceOp(_, _, _, _, _, _) => "Instance"
    case MaterialOp(_) => "Material"
    case LightOp(_, _) => "Light"
    case CameraOp(_, _, _, _, _, _, _) => "Camera"
    case EnvironmentOp(_, _, _, _) => "Environment"
    case SettingsOp(_, _, _, _, _, _) => "Settings"
    case Remove(_, _) => "Remove"
  }

  function OpFields(op: Op): seq<Wire> {
    match op
    case MeshOp(name, mesh) => [Text(name), Opt(OfMesh, mesh)]
    case CurvesOp(name, curves) => [Text(name), Opt(OfCurves, curves)]
    case InstanceOp(name, mesh, curves, material, transforms, visible) =>
      [Text(name), Opt(OfText, mesh), Opt(OfText, curves), Opt(OfText, material), Opt(OfTransforms, transforms), Opt(OfBool, visible)]
    case MaterialOp(patch) => MaterialFields(patch)
    case LightOp(name, light) => [Text(name), Opt(OfLight, light)]
    case CameraOp(name, position, lookAt, up, vfov, focus, aperture) =>
      [Text(name), Opt(OfVec3, position), Opt(OfVec3, lookAt), Opt(OfVec3, up), Opt(OfFloat, vfov), Opt(OfResetFloat, focus), Opt(OfFloat, aperture)]
    case EnvironmentOp(name, path, tint, transform) =>
      [Text(name), Opt(OfResetText, path), Opt(OfVec3, tint), Opt(OfTransform, transform)]
    case SettingsOp(name, spp, noise, bounces, denoise, seed) =>
      [Text(name), Opt(OfUInt, spp), Opt(OfResetFloat, noise), Opt(OfUInt, bounces), Opt(OfBool, denoise), Opt(OfUInt, seed)]
    case Remove(kind, name) => [OfKind(kind), Text(name)]
  }

  function OfOp(op: Op): Wire { Variant(Ascii(OpName(op)), Items(OpFields(op))) }

  function OfChanges(ops: seq<Op>): Wire { Items([Vec(OfOp, ops)]) }

  // ---------------------------------------------------------------- the envelope

  function OfCamera(c: Camera): Wire {
    Items([OfVec3(c.position), OfVec3(c.lookAt), OfVec3(c.up), Single(c.vfovDegrees), Opt(OfFloat, c.focusDistance), Single(c.apertureRadius)])
  }

  function RequestName(r: Request): string {
    match r
    case Hello(_, _) => "Hello"
    case Replace(_) => "Replace"
    case Apply(_) => "Apply"
    case SetCamera(_) => "SetCamera"
    case Resize(_, _) => "Resize"
    case Ping => "Ping"
  }

  function RequestBody(r: Request): Wire {
    match r
    case Hello(protocol, token) => Items([Number(protocol), Text(token)])
    case Replace(changes) => OfChanges(changes)
    case Apply(changes) => OfChanges(changes)
    case SetCamera(camera) => OfCamera(camera)
    case Resize(width, height) => Items([Number(width), Number(height)])
    case Ping => Nil
  }

  /** The one bare variant is a bare string. */
  function OfRequest(r: Request): Wire {
    if r.Ping? then Name("Ping") else Variant(Ascii(RequestName(r)), RequestBody(r))
  }

  /** The request's payload, written by the writer. */
  method EncodeRequest(r: Request) returns (payload: Bytes)
    ensures payload == Encoding(OfRequest(r))
  {
    var writer := new Writer();
    Put(writer, OfRequest(r));
    payload := writer.buffer;
  }
}
