/** The receiver's side of the requests, from its own declarations: a struct is a
    positional array in field order, a variant is named, an absent option is nil.
    Whatever the client writes is read as what it meant. */
module RequestReader {

  import opened Options
  import opened MessagePack
  import opened WireValues
  import opened Responses
  import opened Requests

  // ---------------------------------------------------------------- shapes

  /** Bytes as letters, for comparing names. */
  function Spoken(b: Bytes): (s: string)
    ensures |s| == |b| && forall i :: 0 <= i < |b| ==> s[i] == b[i] as char
  {
    seq(|b|, i requires 0 <= i < |b| => b[i] as char)
  }

  lemma SpokenAscii(s: string)
    requires Plain(s)
    ensures Spoken(Ascii(s)) == s
  {}

  /** A struct or a tuple of just so many fields. */
  function Struct(w: Wire, n: nat): (r: Option<seq<Wire>>)
    ensures r.Some? ==> |r.value| == n
  {
    if w.Items? && |w.items| == n then Some(w.items) else None
  }

  /** A variant that carries nothing, by its name. */
  function Bare(w: Wire): Option<string> { if w.Text? then Some(Spoken(w.text)) else None }

  function Tag(w: Wire): string
    requires w.Variant?
  {
    Spoken(w.name)
  }

  function AsFloat(w: Wire): Option<Word> { if w.Single? && w.bits < 0x1_0000_0000 then Some(w.bits) else None }

  function AsUInt(w: Wire): Option<Word> { if w.Number? && w.n < 0x1_0000_0000 then Some(w.n) else None }

  function AsBool(w: Wire): Option<bool> { if w.Bool? then Some(w.b) else None }

  function AsText(w: Wire): Option<Bytes> { if w.Text? then Some(w.text) else None }

  /** An option: nil is absence, anything else must read. */
  function Maybe<T>(read: Wire -> Option<T>, w: Wire): Option<Option<T>> {
    if w.Nil? then Some(None)
    else
      var v :- read(w);
      Some(Some(v))
  }

  function Each<T>(read: Wire -> Option<T>, ws: seq<Wire>): (r: Option<seq<T>>)
    ensures r.Some? ==> |r.value| == |ws|
  {
    if ws == [] then Some([])
    else
      var first :- read(ws[0]);
      var more :- Each(read, ws[1..]);
      Some([first] + more)
  }

  function AsList<T>(read: Wire -> Option<T>, w: Wire): Option<seq<T>> {
    if w.Items? then Each(read, w.items) else None
  }

  function AsReset<T>(read: Wire -> Option<T>, w: Wire): Option<Reset<T>> {
    if Bare(w) == Some("Clear") then Some(Clear)
    else if w.Variant? && Tag(w) == "Set" then
      var v :- read(w.body);
      Some(Set(v))
    else None
  }

  function AsTexturable<T>(read: Wire -> Option<T>, w: Wire): Option<Texturable<T>> {
    if !w.Variant? then None
    else if Tag(w) == "Constant" then
      var v :- read(w.body);
      Some(Constant(v))
    else if Tag(w) == "Texture" then
      var t :- AsTexture(w.body);
      Some(Texture(t))
    else None
  }

  // ---------------------------------------------------------------- scene types

  function AsVec2(w: Wire): Option<Vec2> {
    var f :- Struct(w, 2);
    var x :- AsFloat(f[0]);
    var y :- AsFloat(f[1]);
    Some(Vec2(x, y))
  }

  function AsVec3(w: Wire): Option<Vec3> {
    var f :- Struct(w, 3);
    var x :- AsFloat(f[0]);
    var y :- AsFloat(f[1]);
    var z :- AsFloat(f[2]);
    Some(Vec3(x, y, z))
  }

  function AsVec4(w: Wire): Option<Vec4> {
    var f :- Struct(w, 4);
    var x :- AsFloat(f[0]);
    var y :- AsFloat(f[1]);
    var z :- AsFloat(f[2]);
    var u :- AsFloat(f[3]);
    Some(Vec4(x, y, z, u))
  }

  function AsTriple(w: Wire): Option<Triple> {
    var f :- Struct(w, 3);
    var a :- AsUInt(f[0]);
    var b :- AsUInt(f[1]);
    var c :- AsUInt(f[2]);
    Some(Triple(a, b, c))
  }

  function AsRows(w: Wire): Option<Rows> {
    var f :- Struct(w, 3);
    var r0 :- AsVec4(f[0]);
    var r1 :- AsVec4(f[1]);
    var r2 :- AsVec4(f[2]);
    Some(Rows(r0, r1, r2))
  }

  function AsKind(w: Wire): Option<Kind> {
    var name :- Bare(w);
    match name
    case "Mesh" => Some(KMesh)
    case "Curves" => Some(KCurves)
    case "Instance" => Some(KInstance)
    case "Material" => Some(KMaterial)
    case "Light" => Some(KLight)
    case "Camera" => Some(KCamera)
    case "Environment" => Some(KEnvironment)
    case "Settings" => Some(KSettings)
    case _ => None
  }

  function AsColorSpace(w: Wire): Option<ColorSpace> {
    var name :- Bare(w);
    if name == "Srgb" then Some(Srgb) else if name == "Linear" then Some(Linear) else None
  }

  function AsChannel(w: Wire): Option<Channel> {
    var name :- Bare(w);
    if name == "R" then Some(R) else if name == "G" then Some(G) else if name == "B" then Some(B) else if name == "A" then Some(A) else None
  }

  function AsInterpolation(w: Wire): Option<WidthInterpolation> {
    var name :- Bare(w);
    if name == "Constant" then Some(PerBatch)
    else if name == "Uniform" then Some(PerCurve)
    else if name == "Varying" then Some(Varying)
    else if name == "Vertex" then Some(Vertex)
    else None
  }

  function AsCurveType(w: Wire): Option<CurveType> {
    var name :- Bare(w);
    if name == "Linear" then Some(Straight) else if name == "Cubic" then Some(Cubic) else None
  }

  function AsBasis(w: Wire): Option<CurveBasis> {
    var name :- Bare(w);
    if name == "Bezier" then Some(Bezier) else if name == "BSpline" then Some(BSpline) else if name == "CatmullRom" then Some(CatmullRom) else None
  }

  function AsWrap(w: Wire): Option<CurveWrap> {
    var name :- Bare(w);
    if name == "Nonperiodic" then Some(Nonperiodic) else if name == "Pinned" then Some(Pinned) else if name == "Periodic" then Some(Periodic) else None
  }

  function AsTexture(w: Wire): Option<TextureRef> {
    var f :- Struct(w, 3);
    var path :- AsText(f[0]);
    var colorSpace :- Maybe(AsColorSpace, f[1]);
    var channel :- Maybe(AsChannel, f[2]);
    Some(TextureRef(path, colorSpace, channel))
  }

  function AsTransform(w: Wire): Option<Transform> {
    if !w.Variant? then None
    else if Tag(w) == "Trs" then
      var f :- Struct(w.body, 3);
      var translate :- AsVec3(f[0]);
      var rotateDegrees :- AsVec3(f[1]);
      var scale :- AsVec3(f[2]);
      Some(Trs(translate, rotateDegrees, scale))
    else if Tag(w) == "Matrix" then
      var rows :- AsRows(w.body);
      Some(Transform.Matrix(rows))
    else None
  }

  function AsVec3s(w: Wire): Option<seq<Vec3>> { AsList(AsVec3, w) }

  function AsVec2s(w: Wire): Option<seq<Vec2>> { AsList(AsVec2, w) }

  function AsTransforms(w: Wire): Option<seq<Transform>> { AsList(AsTransform, w) }

  function AsMesh(w: Wire): Option<MeshSource> {
    if !w.Variant? then None
    else if Tag(w) == "Inline" then
      var f :- Struct(w.body, 4);
      var positions :- AsVec3s(f[0]);
      var normals :- Maybe(AsVec3s, f[1]);
      var uvs :- Maybe(AsVec2s, f[2]);
      var triangles :- AsList(AsTriple, f[3]);
      Some(Inline(positions, normals, uvs, triangles))
    else if Tag(w) == "Ply" then
      var f :- Struct(w.body, 1);
      var path :- AsText(f[0]);
      Some(Ply(path))
    else None
  }

  function AsWidths(w: Wire): Option<Widths> {
    var f :- Struct(w, 2);
    var values :- AsList(AsFloat, f[0]);
    var interpolation :- AsInterpolation(f[1]);
    Some(Widths(values, interpolation))
  }

  function AsCurves(w: Wire): Option<CurvesSource> {
    if !w.Variant? then None
    else if Tag(w) == "Inline" then
      var f :- Struct(w.body, 6);
      var points :- AsVec3s(f[0]);
      var counts :- AsList(AsUInt, f[1]);
      var widths :- Maybe(AsWidths, f[2]);
      var curveType :- AsCurveType(f[3]);
      var basis :- AsBasis(f[4]);
      var wrap :- AsWrap(f[5]);
      Some(Cells(points, counts, widths, curveType, basis, wrap))
    else if Tag(w) == "Hair" then
      var f :- Struct(w.body, 1);
      var path :- AsText(f[0]);
      Some(Hair(path))
    else None
  }

  function AsLight(w: Wire): Option<Light> {
    if !w.Variant? then None
    else if Tag(w) == "Distant" then
      var f :- Struct(w.body, 2);
      var direction :- AsVec3(f[0]);
      var irradiance :- AsVec3(f[1]);
      Some(Distant(direction, irradiance))
    else if Tag(w) == "Point" then
      var f :- Struct(w.body, 2);
      var position :- AsVec3(f[0]);
      var intensity :- AsVec3(f[1]);
      Some(Point(position, intensity))
    else None
  }

  function AsColor(w: Wire): Option<Texturable<Vec3>> { AsTexturable(AsVec3, w) }

  function AsScalar(w: Wire): Option<Texturable<Word>> { AsTexturable(AsFloat, w) }

  function AsResetFloat(w: Wire): Option<Reset<Word>> { AsReset(AsFloat, w) }

  function AsResetText(w: Wire): Option<Reset<Bytes>> { AsReset(AsText, w) }

  function AsResetTexture(w: Wire): Option<Reset<TextureRef>> { AsReset(AsTexture, w) }

  // ---------------------------------------------------------------- materials

  function BaseAt(f: seq<Wire>): Option<(Color, OptWord, Scalar)>
    requires |f| == 30
  {
    var color :- Maybe(AsColor, f[1]);
    var roughness :- Maybe(AsFloat, f[2]);
    var metalness :- Maybe(AsScalar, f[3]);
    Some((color, roughness, metalness))
  }

  function SpecularAt(f: seq<Wire>): Option<(OptWord, Scalar, OptWord)>
    requires |f| == 30
  {
    var weight :- Maybe(AsFloat, f[4]);
    var roughness :- Maybe(AsScalar, f[5]);
    var ior :- Maybe(AsFloat, f[6]);
    Some((weight, roughness, ior))
  }

  function TransmissionAt(f: seq<Wire>): Option<(OptWord, Option<Vec3>, OptWord, Option<Vec3>, OptWord)>
    requires |f| == 30
  {
    var weight :- Maybe(AsFloat, f[7]);
    var color :- Maybe(AsVec3, f[8]);
    var depth :- Maybe(AsFloat, f[9]);
    var scatter :- Maybe(AsVec3, f[10]);
    var anisotropy :- Maybe(AsFloat, f[11]);
    Some((weight, color, depth, scatter, anisotropy))
  }

  function SubsurfaceAt(f: seq<Wire>): Option<(Scalar, Color, Scalar, Color, Scalar)>
    requires |f| == 30
  {
    var weight :- Maybe(AsScalar, f[12]);
    var color :- Maybe(AsColor, f[13]);
    var radius :- Maybe(AsScalar, f[14]);
    var radiusScale :- Maybe(AsColor, f[15]);
    var anisotropy :- Maybe(AsScalar, f[16]);
    Some((weight, color, radius, radiusScale, anisotropy))
  }

  function CoatAt(f: seq<Wire>): Option<(OptWord, Option<Vec3>, OptWord, OptWord, OptWord)>
    requires |f| == 30
  {
    var weight :- Maybe(AsFloat, f[17]);
    var color :- Maybe(AsVec3, f[18]);
    var roughness :- Maybe(AsFloat, f[19]);
    var ior :- Maybe(AsFloat, f[20]);
    var darkening :- Maybe(AsFloat, f[21]);
    Some((weight, color, roughness, ior, darkening))
  }

  function FuzzAt(f: seq<Wire>): Option<(OptWord, Option<Vec3>, OptWord)>
    requires |f| == 30
  {
    var weight :- Maybe(AsFloat, f[22]);
    var color :- Maybe(AsVec3, f[23]);
    var roughness :- Maybe(AsFloat, f[24]);
    Some((weight, color, roughness))
  }

  function EmissionAt(f: seq<Wire>): Option<(OptWord, Color)>
    requires |f| == 30
  {
    var luminance :- Maybe(AsFloat, f[25]);
    var color :- Maybe(AsColor, f[26]);
    Some((luminance, color))
  }

  function GeometryAt(f: seq<Wire>): Option<(Scalar, Option<bool>, Option<Reset<TextureRef>>)>
    requires |f| == 30
  {
    var opacity :- Maybe(AsScalar, f[27]);
    var thinWalled :- Maybe(AsBool, f[28]);
    var normal :- Maybe(AsResetTexture, f[29]);
    Some((opacity, thinWalled, normal))
  }

  /** Thirty fields, each at its place. */
  function MaterialAt(f: seq<Wire>): Option<MaterialPatch>
    requires |f| == 30
  {
    var name :- AsText(f[0]);
    var base :- BaseAt(f);
    var spec :- SpecularAt(f);
    var trans :- TransmissionAt(f);
    var sub :- SubsurfaceAt(f);
    var coat :- CoatAt(f);
    var fuzz :- FuzzAt(f);
    var emission :- EmissionAt(f);
    var geometry :- GeometryAt(f);
    Some(MaterialPatch(name, base.0, base.1, base.2, spec.0, spec.1, spec.2, trans.0, trans.1, trans.2, trans.3, trans.4,
      sub.0, sub.1, sub.2, sub.3, sub.4, coat.0, coat.1, coat.2, coat.3, coat.4, fuzz.0, fuzz.1, fuzz.2,
      emission.0, emission.1, geometry.0, geometry.1, geometry.2))
  }

  // ---------------------------------------------------------------- ops and the envelope

  function InstanceAt(w: Wire): Option<Op> {
    var f :- Struct(w, 6);
    var name :- AsText(f[0]);
    var mesh :- Maybe(AsText, f[1]);
    var curves :- Maybe(AsText, f[2]);
    var material :- Maybe(AsText, f[3]);
    var transforms :- Maybe(AsTransforms, f[4]);
    var cameraVisible :- Maybe(AsBool, f[5]);
    Some(InstanceOp(name, mesh, curves, material, transforms, cameraVisible))
  }

  function CameraAt(w: Wire): Option<Op> {
    var f :- Struct(w, 7);
    var name :- AsText(f[0]);
    var position :- Maybe(AsVec3, f[1]);
    var lookAt :- Maybe(AsVec3, f[2]);
    var up :- Maybe(AsVec3, f[3]);
    var vfovDegrees :- Maybe(AsFloat, f[4]);
    var focusDistance :- Maybe(AsResetFloat, f[5]);
    var apertureRadius :- Maybe(AsFloat, f[6]);
    Some(CameraOp(name, position, lookAt, up, vfovDegrees, focusDistance, apertureRadius))
  }

  function EnvironmentAt(w: Wire): Option<Op> {
    var f :- Struct(w, 4);
    var name :- AsText(f[0]);
    var path :- Maybe(AsResetText, f[1]);
    var tint :- Maybe(AsVec3, f[2]);
    var transform :- Maybe(AsTransform, f[3]);
    Some(EnvironmentOp(name, path, tint, transform))
  }

  function SettingsAt(w: Wire): Option<Op> {
    var f :- Struct(w, 6);
    var name :- AsText(f[0]);
    var spp :- Maybe(AsUInt, f[1]);
    var noiseThreshold :- Maybe(AsResetFloat, f[2]);
    var maxBounces :- Maybe(AsUInt, f[3]);
    var denoise :- Maybe(AsBool, f[4]);
    var seed :- Maybe(AsUInt, f[5]);
    Some(SettingsOp(name, spp, noiseThreshold, maxBounces, denoise, seed))
  }

  function AsOp(w: Wire): Option<Op> {
    if !w.Variant? then None
    else
      match Tag(w)
      case "Mesh" =>
        var f :- Struct(w.body, 2);
        var name :- AsText(f[0]);
        var source :- Maybe(AsMesh, f[1]);
        Some(MeshOp(name, source))
      case "Curves" =>
        var f :- Struct(w.body, 2);
        var name :- AsText(f[0]);
        var source :- Maybe(AsCurves, f[1]);
        Some(CurvesOp(name, source))
      case "Instance" => InstanceAt(w.body)
      case "Material" =>
        var f :- Struct(w.body, 30);
        var patch :- MaterialAt(f);
        Some(MaterialOp(patch))
      case "Light" =>
        var f :- Struct(w.body, 2);
        var name :- AsText(f[0]);
        var light :- Maybe(AsLight, f[1]);
        Some(LightOp(name, light))
      case "Camera" => CameraAt(w.body)
      case "Environment" => EnvironmentAt(w.body)
      case "Settings" => SettingsAt(w.body)
      case "Remove" =>
        var f :- Struct(w.body, 2);
        var kind :- AsKind(f[0]);
        var name :- AsText(f[1]);
        Some(Op.Remove(kind, name))
      case _ => None
  }

  function AsChanges(w: Wire): Option<seq<Op>> {
    var f :- Struct(w, 1);
    AsList(AsOp, f[0])
  }

  function AsCamera(w: Wire): Option<Camera> {
    var f :- Struct(w, 6);
    var position :- AsVec3(f[0]);
    var lookAt :- AsVec3(f[1]);
    var up :- AsVec3(f[2]);
    var vfovDegrees :- AsFloat(f[3]);
    var focusDistance :- Maybe(AsFloat, f[4]);
    var apertureRadius :- AsFloat(f[5]);
    Some(Camera(position, lookAt, up, vfovDegrees, focusDistance, apertureRadius))
  }

  function AsRequest(w: Wire): Option<Request> {
    if Bare(w) == Some("Ping") then Some(Ping)
    else if !w.Variant? then None
    else
      match Tag(w)
      case "Hello" =>
        var f :- Struct(w.body, 2);
        var protocol :- AsUInt(f[0]);
        var token :- AsText(f[1]);
        Some(Hello(protocol, token))
      case "Replace" =>
        var changes :- AsChanges(w.body);
        Some(Replace(changes))
      case "Apply" =>
        var changes :- AsChanges(w.body);
        Some(Apply(changes))
      case "SetCamera" =>
        var camera :- AsCamera(w.body);
        Some(SetCamera(camera))
      case "Resize" =>
        var f :- Struct(w.body, 2);
        var width :- AsUInt(f[0]);
        var height :- AsUInt(f[1]);
        Some(Resize(width, height))
      case _ => None
  }

  /** A whole payload as a request. */
  function ReadRequest(p: Bytes): Read<Request> {
    match ReadTree(p, 0)
    case Failed(e) => Failed(e)
    case Got(w, next) =>
      var r := AsRequest(w);
      if r.None? then Failed(DecodeError("a request", 0, None)) else Got(r.value, next)
  }

  // ---------------------------------------------------------------- what is written is read

  /** Reading undoes writing, and nothing is written as absence. */
  ghost predicate Back<T(!new)>(read: Wire -> Option<T>, write: T -> Wire) {
    forall v :: read(write(v)) == Some(v) && write(v) != Nil
  }

  lemma MaybeBack<T(!new)>(read: Wire -> Option<T>, write: T -> Wire, o: Option<T>)
    requires Back(read, write)
    ensures Maybe(read, Opt(write, o)) == Some(o)
  {
    if o.Some? { assert read(write(o.value)) == Some(o.value); }
  }

  lemma {:induction false} EachBack<T(!new)>(read: Wire -> Option<T>, write: T -> Wire, s: seq<T>, ws: seq<Wire>)
    requires Back(read, write) && |ws| == |s| && forall i :: 0 <= i < |s| ==> ws[i] == write(s[i])
    ensures Each(read, ws) == Some(s)
    decreases |s|
  {
    if s != [] {
      EachBack(read, write, s[1..], ws[1..]);
      assert read(write(s[0])) == Some(s[0]);
      assert [s[0]] + s[1..] == s;
    }
  }

  lemma ListBack<T(!new)>(read: Wire -> Option<T>, write: T -> Wire, s: seq<T>)
    requires Back(read, write)
    ensures AsList(read, Vec(write, s)) == Some(s) && Vec(write, s) != Nil
  {
    EachBack(read, write, s, Vec(write, s).items);
  }

  lemma Named(s: string, w: Wire)
    requires Plain(s) && (w == Text(Ascii(s)) || (w.Variant? && w.name == Ascii(s)))
    ensures w.Text? ==> Bare(w) == Some(s)
    ensures w.Variant? ==> Tag(w) == s && Bare(w) == None
  {
    SpokenAscii(s);
  }

  lemma ResetBack<T(!new)>(read: Wire -> Option<T>, write: T -> Wire, r: Reset<T>)
    requires Back(read, write)
    ensures AsReset(read, Resettable(write, r)) == Some(r) && Resettable(write, r) != Nil
  {
    if r.Set? { Named("Set", Resettable(write, r)); assert read(write(r.value)) == Some(r.value); }
    else { Named("Clear", Resettable(write, r)); }
  }

  lemma TexturableBack<T(!new)>(read: Wire -> Option<T>, write: T -> Wire, t: Texturable<T>)
    requires Back(read, write)
    ensures AsTexturable(read, Textured(write, t)) == Some(t) && Textured(write, t) != Nil
  {
    if t.Constant? {
      Named("Constant", Textured(write, t));
      assert read(write(t.value)) == Some(t.value);
    } else {
      Named("Texture", Textured(write, t));
      TextureBack(t.image);
    }
  }

  lemma FloatBack() ensures Back(AsFloat, OfFloat) {}

  lemma UIntBack() ensures Back(AsUInt, OfUInt) {}

  lemma BoolBack() ensures Back(AsBool, OfBool) {}

  lemma TextBack() ensures Back(AsText, OfText) {}

  lemma Vec2Back() ensures Back(AsVec2, OfVec2) {}

  lemma Vec3Back() ensures Back(AsVec3, OfVec3) {}

  lemma Vec4Back() ensures Back(AsVec4, OfVec4) {}

  lemma TripleBack() ensures Back(AsTriple, OfTriple) {}

  lemma RowsBack()
    ensures Back(AsRows, OfRows)
  {
    Vec4Back();
    hide AsVec4, OfVec4;
  }

  lemma KindBack()
    ensures Back(AsKind, OfKind)
  {
    forall v ensures AsKind(OfKind(v)) == Some(v) && OfKind(v) != Nil { Named(KindName(v), OfKind(v)); }
  }

  lemma ColorSpaceBack()
    ensures Back(AsColorSpace, OfColorSpace)
  {
    forall v ensures AsColorSpace(OfColorSpace(v)) == Some(v) && OfColorSpace(v) != Nil { Named(ColorSpaceName(v), OfColorSpace(v)); }
  }

  lemma ChannelBack()
    ensures Back(AsChannel, OfChannel)
  {
    forall v ensures AsChannel(OfChannel(v)) == Some(v) && OfChannel(v) != Nil { Named(ChannelName(v), OfChannel(v)); }
  }

  lemma InterpolationBack()
    ensures Back(AsInterpolation, OfInterpolation)
  {
    forall v ensures AsInterpolation(OfInterpolation(v)) == Some(v) && OfInterpolation(v) != Nil { Named(InterpolationName(v), OfInterpolation(v)); }
  }

  lemma CurveTypeBack()
    ensures Back(AsCurveType, OfCurveType)
  {
    forall v ensures AsCurveType(OfCurveType(v)) == Some(v) && OfCurveType(v) != Nil { Named(CurveTypeName(v), OfCurveType(v)); }
  }

  lemma BasisBack()
    ensures Back(AsBasis, OfBasis)
  {
    forall v ensures AsBasis(OfBasis(v)) == Some(v) && OfBasis(v) != Nil { Named(BasisName(v), OfBasis(v)); }
  }

  lemma WrapBack()
    ensures Back(AsWrap, OfWrap)
  {
    forall v ensures AsWrap(OfWrap(v)) == Some(v) && OfWrap(v) != Nil { Named(WrapName(v), OfWrap(v)); }
  }

  lemma TextureBack(t: TextureRef)
    ensures AsTexture(OfTexture(t)) == Some(t) && OfTexture(t) != Nil
  {
    ColorSpaceBack();
    ChannelBack();
    hide AsColorSpace, OfColorSpace, AsChannel, OfChannel, Back;
    MaybeBack(AsColorSpace, OfColorSpace, t.colorSpace);
    MaybeBack(AsChannel, OfChannel, t.channel);
    hide Maybe, Opt;
  }

  lemma TexturesBack()
    ensures Back(AsTexture, OfTexture)
  {
    forall t ensures AsTexture(OfTexture(t)) == Some(t) && OfTexture(t) != Nil { TextureBack(t); }
  }

  lemma TransformBack()
    ensures Back(AsTransform, OfTransform)
  {
    Vec3Back();
    RowsBack();
    hide AsVec3, OfVec3, AsRows, OfRows;
    forall t ensures AsTransform(OfTransform(t)) == Some(t) && OfTransform(t) != Nil {
      Named(if t.Trs? then "Trs" else "Matrix", OfTransform(t));
    }
  }

  lemma Vec3sBack()
    ensures Back(AsVec3s, OfVec3s)
  {
    Vec3Back();
    hide AsVec3, OfVec3;
    forall s ensures AsVec3s(OfVec3s(s)) == Some(s) && OfVec3s(s) != Nil { ListBack(AsVec3, OfVec3, s); }
  }

  lemma Vec2sBack()
    ensures Back(AsVec2s, OfVec2s)
  {
    Vec2Back();
    hide AsVec2, OfVec2;
    forall s ensures AsVec2s(OfVec2s(s)) == Some(s) && OfVec2s(s) != Nil { ListBack(AsVec2, OfVec2, s); }
  }

  lemma TransformsBack()
    ensures Back(AsTransforms, OfTransforms)
  {
    TransformBack();
    hide AsTransform, OfTransform;
    forall s ensures AsTransforms(OfTransforms(s)) == Some(s) && OfTransforms(s) != Nil { ListBack(AsTransform, OfTransform, s); }
  }

  lemma InlineBack(m: MeshSource)
    requires m.Inline?
    ensures AsMesh(OfMesh(m)) == Some(m)
  {
    Named("Inline", OfMesh(m));
    Vec3sBack();
    Vec2sBack();
    TripleBack();
    hide AsVec3s, OfVec3s, AsVec2s, OfVec2s, AsTriple, OfTriple;
    assert AsVec3s(OfVec3s(m.positions)) == Some(m.positions);
    hide Back;
    MaybeBack(AsVec3s, OfVec3s, m.normals);
    MaybeBack(AsVec2s, OfVec2s, m.uvs);
    ListBack(AsTriple, OfTriple, m.triangles);
    hide Maybe, Opt, AsList, Vec, Bare, Spoken, Ascii;
  }

  lemma MeshBack()
    ensures Back(AsMesh, OfMesh)
  {
    forall m ensures AsMesh(OfMesh(m)) == Some(m) && OfMesh(m) != Nil {
      if m.Inline? { InlineBack(m); } else { Named("Ply", OfMesh(m)); }
    }
  }

  lemma WidthsBack()
    ensures Back(AsWidths, OfWidths)
  {
    FloatBack();
    InterpolationBack();
    hide AsFloat, OfFloat, AsInterpolation, OfInterpolation;
    forall v ensures AsWidths(OfWidths(v)) == Some(v) && OfWidths(v) != Nil { ListBack(AsFloat, OfFloat, v.values); }
  }

  lemma CellsBack(c: CurvesSource)
    requires c.Cells?
    ensures AsCurves(OfCurves(c)) == Some(c)
  {
    Named("Inline", OfCurves(c));
    Vec3sBack();
    UIntBack();
    WidthsBack();
    CurveTypeBack();
    BasisBack();
    WrapBack();
    hide AsVec3s, OfVec3s, AsUInt, OfUInt, AsWidths, OfWidths, AsCurveType, OfCurveType, AsBasis, OfBasis, AsWrap, OfWrap;
    assert AsVec3s(OfVec3s(c.points)) == Some(c.points) && AsCurveType(OfCurveType(c.curveType)) == Some(c.curveType);
    assert AsBasis(OfBasis(c.basis)) == Some(c.basis) && AsWrap(OfWrap(c.wrap)) == Some(c.wrap);
    hide Back;
    ListBack(AsUInt, OfUInt, c.counts);
    MaybeBack(AsWidths, OfWidths, c.widths);
    hide Maybe, Opt, AsList, Vec, Bare, Spoken, Ascii;
  }

  lemma CurvesBack()
    ensures Back(AsCurves, OfCurves)
  {
    forall c ensures AsCurves(OfCurves(c)) == Some(c) && OfCurves(c) != Nil {
      if c.Cells? { CellsBack(c); } else { Named("Hair", OfCurves(c)); }
    }
  }

  lemma LightBack()
    ensures Back(AsLight, OfLight)
  {
    Vec3Back();
    hide AsVec3, OfVec3;
    forall l ensures AsLight(OfLight(l)) == Some(l) && OfLight(l) != Nil {
      Named(if l.Distant? then "Distant" else "Point", OfLight(l));
    }
  }

  lemma ColorBack()
    ensures Back(AsColor, OfColor)
  {
    Vec3Back();
    hide AsVec3, OfVec3;
    forall v ensures AsColor(OfColor(v)) == Some(v) && OfColor(v) != Nil { TexturableBack(AsVec3, OfVec3, v); }
  }

  lemma ScalarBack()
    ensures Back(AsScalar, OfScalar)
  {
    FloatBack();
    hide AsFloat, OfFloat;
    forall v ensures AsScalar(OfScalar(v)) == Some(v) && OfScalar(v) != Nil { TexturableBack(AsFloat, OfFloat, v); }
  }

  lemma ResetFloatBack()
    ensures Back(AsResetFloat, OfResetFloat)
  {
    FloatBack();
    hide AsFloat, OfFloat;
    forall v ensures AsResetFloat(OfResetFloat(v)) == Some(v) && OfResetFloat(v) != Nil { ResetBack(AsFloat, OfFloat, v); }
  }

  lemma ResetTextBack()
    ensures Back(AsResetText, OfResetText)
  {
    TextBack();
    hide AsText, OfText;
    forall v ensures AsResetText(OfResetText(v)) == Some(v) && OfResetText(v) != Nil { ResetBack(AsText, OfText, v); }
  }

  lemma ResetTextureBack()
    ensures Back(AsResetTexture, OfResetTexture)
  {
    TexturesBack();
    hide AsTexture, OfTexture;
    forall v ensures AsResetTexture(OfResetTexture(v)) == Some(v) && OfResetTexture(v) != Nil { ResetBack(AsTexture, OfTexture, v); }
  }

  /** The fields from place k on are these. */
  ghost predicate Placed(f: seq<Wire>, k: nat, part: seq<Wire>) {
    k + |part| <= |f| && forall i {:trigger part[i]} :: 0 <= i < |part| ==> f[k + i] == part[i]
  }

  lemma PartPlaced(f: seq<Wire>, before: seq<Wire>, part: seq<Wire>, rest: seq<Wire>)
    requires f == before + (part + rest)
    ensures Placed(f, |before|, part) && f == (before + part) + rest
  {}

  lemma BaseBack(f: seq<Wire>, m: MaterialPatch)
    requires |f| == 30 && Placed(f, 1, BaseFields(m))
    ensures BaseAt(f) == Some((m.baseColor, m.baseDiffuseRoughness, m.baseMetalness))
  {
    var part := BaseFields(m);
    assert f[1] == part[0] && f[2] == part[1] && f[3] == part[2];
    ColorBack();
    FloatBack();
    ScalarBack();
    hide AsColor, OfColor, AsFloat, OfFloat, AsScalar, OfScalar, Back, Placed;
    MaybeBack(AsColor, OfColor, m.baseColor);
    MaybeBack(AsFloat, OfFloat, m.baseDiffuseRoughness);
    MaybeBack(AsScalar, OfScalar, m.baseMetalness);
    hide Maybe, Opt;
  }

  lemma SpecularBack(f: seq<Wire>, m: MaterialPatch)
    requires |f| == 30 && Placed(f, 4, SpecularFields(m))
    ensures SpecularAt(f) == Some((m.specularWeight, m.specularRoughness, m.specularIor))
  {
    var part := SpecularFields(m);
    assert f[4] == part[0] && f[5] == part[1] && f[6] == part[2];
    FloatBack();
    ScalarBack();
    hide AsFloat, OfFloat, AsScalar, OfScalar, Back, Placed;
    MaybeBack(AsFloat, OfFloat, m.specularWeight);
    MaybeBack(AsScalar, OfScalar, m.specularRoughness);
    MaybeBack(AsFloat, OfFloat, m.specularIor);
    hide Maybe, Opt;
  }

  lemma TransmissionBack(f: seq<Wire>, m: MaterialPatch)
    requires |f| == 30 && Placed(f, 7, TransmissionFields(m))
    ensures TransmissionAt(f) == Some((m.transmissionWeight, m.transmissionColor, m.transmissionDepth, m.transmissionScatter, m.transmissionScatterAnisotropy))
  {
    var part := TransmissionFields(m);
    assert f[7] == part[0] && f[8] == part[1] && f[9] == part[2] && f[10] == part[3] && f[11] == part[4];
    FloatBack();
    Vec3Back();
    hide AsFloat, OfFloat, AsVec3, OfVec3, Back, Placed;
    MaybeBack(AsFloat, OfFloat, m.transmissionWeight);
    MaybeBack(AsVec3, OfVec3, m.transmissionColor);
    MaybeBack(AsFloat, OfFloat, m.transmissionDepth);
    MaybeBack(AsVec3, OfVec3, m.transmissionScatter);
    MaybeBack(AsFloat, OfFloat, m.transmissionScatterAnisotropy);
    hide Maybe, Opt;
  }

  lemma SubsurfaceBack(f: seq<Wire>, m: MaterialPatch)
    requires |f| == 30 && Placed(f, 12, SubsurfaceFields(m))
    ensures SubsurfaceAt(f) == Some((m.subsurfaceWeight, m.subsurfaceColor, m.subsurfaceRadius, m.subsurfaceRadiusScale, m.subsurfaceScatterAnisotropy))
  {
    var part := SubsurfaceFields(m);
    assert f[12] == part[0] && f[13] == part[1] && f[14] == part[2] && f[15] == part[3] && f[16] == part[4];
    ScalarBack();
    ColorBack();
    hide AsScalar, OfScalar, AsColor, OfColor, Back, Placed;
    MaybeBack(AsScalar, OfScalar, m.subsurfaceWeight);
    MaybeBack(AsColor, OfColor, m.subsurfaceColor);
    MaybeBack(AsScalar, OfScalar, m.subsurfaceRadius);
    MaybeBack(AsColor, OfColor, m.subsurfaceRadiusScale);
    MaybeBack(AsScalar, OfScalar, m.subsurfaceScatterAnisotropy);
    hide Maybe, Opt;
  }

  lemma CoatBack(f: seq<Wire>, m: MaterialPatch)
    requires |f| == 30 && Placed(f, 17, CoatFields(m))
    ensures CoatAt(f) == Some((m.coatWeight, m.coatColor, m.coatRoughness, m.coatIor, m.coatDarkening))
  {
    var part := CoatFields(m);
    assert f[17] == part[0] && f[18] == part[1] && f[19] == part[2] && f[20] == part[3] && f[21] == part[4];
    FloatBack();
    Vec3Back();
    hide AsFloat, OfFloat, AsVec3, OfVec3, Back, Placed;
    MaybeBack(AsFloat, OfFloat, m.coatWeight);
    MaybeBack(AsVec3, OfVec3, m.coatColor);
    MaybeBack(AsFloat, OfFloat, m.coatRoughness);
    MaybeBack(AsFloat, OfFloat, m.coatIor);
    MaybeBack(AsFloat, OfFloat, m.coatDarkening);
    hide Maybe, Opt;
  }

  lemma FuzzBack(f: seq<Wire>, m: MaterialPatch)
    requires |f| == 30 && Placed(f, 22, FuzzFields(m))
    ensures FuzzAt(f) == Some((m.fuzzWeight, m.fuzzColor, m.fuzzRoughness))
  {
    var part := FuzzFields(m);
    assert f[22] == part[0] && f[23] == part[1] && f[24] == part[2];
    FloatBack();
    Vec3Back();
    hide AsFloat, OfFloat, AsVec3, OfVec3, Back, Placed;
    MaybeBack(AsFloat, OfFloat, m.fuzzWeight);
    MaybeBack(AsVec3, OfVec3, m.fuzzColor);
    MaybeBack(AsFloat, OfFloat, m.fuzzRoughness);
    hide Maybe, Opt;
  }

  lemma EmissionBack(f: seq<Wire>, m: MaterialPatch)
    requires |f| == 30 && Placed(f, 25, EmissionFields(m))
    ensures EmissionAt(f) == Some((m.emissionLuminance, m.emissionColor))
  {
    var part := EmissionFields(m);
    assert f[25] == part[0] && f[26] == part[1];
    FloatBack();
    ColorBack();
    hide AsFloat, OfFloat, AsColor, OfColor, Back, Placed;
    MaybeBack(AsFloat, OfFloat, m.emissionLuminance);
    MaybeBack(AsColor, OfColor, m.emissionColor);
    hide Maybe, Opt;
  }

  lemma GeometryBack(f: seq<Wire>, m: MaterialPatch)
    requires |f| == 30 && Placed(f, 27, GeometryFields(m))
    ensures GeometryAt(f) == Some((m.geometryOpacity, m.geometryThinWalled, m.geometryNormal))
  {
    var part := GeometryFields(m);
    assert f[27] == part[0] && f[28] == part[1] && f[29] == part[2];
    ScalarBack();
    BoolBack();
    ResetTextureBack();
    hide AsScalar, OfScalar, AsBool, OfBool, AsResetTexture, OfResetTexture, Back, Placed;
    MaybeBack(AsScalar, OfScalar, m.geometryOpacity);
    MaybeBack(AsBool, OfBool, m.geometryThinWalled);
    MaybeBack(AsResetTexture, OfResetTexture, m.geometryNormal);
    hide Maybe, Opt;
  }

  /** Where each group of fields stands among the thirty. */
  lemma GroupsPlaced(m: MaterialPatch)
    ensures var f := MaterialFields(m);
      && f[0] == Text(m.name) && Placed(f, 1, BaseFields(m)) && Placed(f, 4, SpecularFields(m))
      && Placed(f, 7, TransmissionFields(m)) && Placed(f, 12, SubsurfaceFields(m)) && Placed(f, 17, CoatFields(m))
      && Placed(f, 22, FuzzFields(m)) && Placed(f, 25, EmissionFields(m)) && Placed(f, 27, GeometryFields(m))
  {
    var f := MaterialFields(m);
    var g8 := GeometryFields(m);
    var g7 := EmissionFields(m) + g8;
    var g6 := FuzzFields(m) + g7;
    var g5 := CoatFields(m) + g6;
    var g4 := SubsurfaceFields(m) + g5;
    var g3 := TransmissionFields(m) + g4;
    var g2 := SpecularFields(m) + g3;
    assert f == [Text(m.name)] + (BaseFields(m) + g2);
    assert |BaseFields(m)| == 3 && |SpecularFields(m)| == 3 && |TransmissionFields(m)| == 5 && |SubsurfaceFields(m)| == 5;
    assert |CoatFields(m)| == 5 && |FuzzFields(m)| == 3 && |EmissionFields(m)| == 2;
    hide MaterialFields, BaseFields, SpecularFields, TransmissionFields, SubsurfaceFields, CoatFields, FuzzFields, EmissionFields, GeometryFields, Placed;
    var b0 := [Text(m.name)];
    PartPlaced(f, b0, BaseFields(m), g2);
    var b1 := b0 + BaseFields(m);
    PartPlaced(f, b1, SpecularFields(m), g3);
    var b2 := b1 + SpecularFields(m);
    PartPlaced(f, b2, TransmissionFields(m), g4);
    var b3 := b2 + TransmissionFields(m);
    PartPlaced(f, b3, SubsurfaceFields(m), g5);
    var b4 := b3 + SubsurfaceFields(m);
    PartPlaced(f, b4, CoatFields(m), g6);
    var b5 := b4 + CoatFields(m);
    PartPlaced(f, b5, FuzzFields(m), g7);
    var b6 := b5 + FuzzFields(m);
    PartPlaced(f, b6, EmissionFields(m), g8);
    var b7 := b6 + EmissionFields(m);
    assert g8 == g8 + [];
    PartPlaced(f, b7, g8, []);
    assert f[0] == b0[0];
  }

  /** All thirty fields of a material are read at their places. */
  lemma MaterialBack(m: MaterialPatch)
    ensures MaterialAt(MaterialFields(m)) == Some(m)
  {
    var f := MaterialFields(m);
    GroupsPlaced(m);
    hide MaterialFields, Placed, BaseAt, SpecularAt, TransmissionAt, SubsurfaceAt, CoatAt, FuzzAt, EmissionAt, GeometryAt;
    BaseBack(f, m);
    SpecularBack(f, m);
    TransmissionBack(f, m);
    SubsurfaceBack(f, m);
    CoatBack(f, m);
    FuzzBack(f, m);
    EmissionBack(f, m);
    GeometryBack(f, m);
  }

  // ---------------------------------------------------------------- whole messages

  lemma InstanceBack(op: Op)
    requires op.InstanceOp?
    ensures InstanceAt(Items(OpFields(op))) == Some(op)
  {
    TextBack();
    BoolBack();
    TransformsBack();
    hide AsText, OfText, AsBool, OfBool, AsTransforms, OfTransforms;
    assert AsText(OfText(op.name)) == Some(op.name) by { TextReads(op.name); }
    hide Back;
    MaybeBack(AsText, OfText, op.placedMesh);
    MaybeBack(AsText, OfText, op.placedCurves);
    MaybeBack(AsText, OfText, op.material);
    MaybeBack(AsTransforms, OfTransforms, op.transforms);
    MaybeBack(AsBool, OfBool, op.cameraVisible);
    hide Maybe, Opt;
    TextReads(op.name);
  }

  lemma TextReads(t: Bytes)
    ensures AsText(Text(t)) == Some(t) && OfText(t) == Text(t)
  {}

  lemma CameraOpBack(op: Op)
    requires op.CameraOp?
    ensures CameraAt(Items(OpFields(op))) == Some(op)
  {
    Vec3Back();
    FloatBack();
    ResetFloatBack();
    TextReads(op.name);
    hide AsText, AsVec3, OfVec3, AsFloat, OfFloat, AsResetFloat, OfResetFloat, Back;
    MaybeBack(AsVec3, OfVec3, op.position);
    MaybeBack(AsVec3, OfVec3, op.lookAt);
    MaybeBack(AsVec3, OfVec3, op.up);
    MaybeBack(AsFloat, OfFloat, op.vfovDegrees);
    MaybeBack(AsResetFloat, OfResetFloat, op.focusDistance);
    MaybeBack(AsFloat, OfFloat, op.apertureRadius);
    hide Maybe, Opt;
  }

  lemma EnvironmentBack(op: Op)
    requires op.EnvironmentOp?
    ensures EnvironmentAt(Items(OpFields(op))) == Some(op)
  {
    ResetTextBack();
    Vec3Back();
    TransformBack();
    TextReads(op.name);
    hide AsText, AsVec3, OfVec3, AsResetText, OfResetText, AsTransform, OfTransform, Back;
    MaybeBack(AsResetText, OfResetText, op.path);
    MaybeBack(AsVec3, OfVec3, op.tint);
    MaybeBack(AsTransform, OfTransform, op.transform);
    hide Maybe, Opt;
  }

  lemma SettingsBack(op: Op)
    requires op.SettingsOp?
    ensures SettingsAt(Items(OpFields(op))) == Some(op)
  {
    UIntBack();
    BoolBack();
    ResetFloatBack();
    TextReads(op.name);
    hide AsText, AsUInt, OfUInt, AsBool, OfBool, AsResetFloat, OfResetFloat, Back;
    MaybeBack(AsUInt, OfUInt, op.spp);
    MaybeBack(AsResetFloat, OfResetFloat, op.noiseThreshold);
    MaybeBack(AsUInt, OfUInt, op.maxBounces);
    MaybeBack(AsBool, OfBool, op.denoise);
    MaybeBack(AsUInt, OfUInt, op.seed);
    hide Maybe, Opt;
  }

  lemma PairBack(op: Op)
    requires op.MeshOp? || op.CurvesOp? || op.LightOp? || op.Remove?
    ensures AsOp(OfOp(op)) == Some(op)
  {
    Named(OpName(op), OfOp(op));
    TextReads(op.name);
    MeshBack();
    CurvesBack();
    LightBack();
    KindBack();
    hide AsText, AsMesh, OfMesh, AsCurves, OfCurves, AsLight, OfLight, AsKind, OfKind, MaterialFields, Spoken, Ascii, InstanceAt, CameraAt, EnvironmentAt, SettingsAt, MaterialAt;
    match op {
      case MeshOp(_, mesh) => MaybeBack(AsMesh, OfMesh, mesh);
      case CurvesOp(_, curves) => MaybeBack(AsCurves, OfCurves, curves);
      case LightOp(_, light) => MaybeBack(AsLight, OfLight, light);
      case Remove(kind, _) => assert AsKind(OfKind(kind)) == Some(kind);
    }
  }

  lemma MaterialOpBack(op: Op)
    requires op.MaterialOp?
    ensures AsOp(OfOp(op)) == Some(op)
  {
    hide MaterialFields, MaterialAt, InstanceAt, CameraAt, EnvironmentAt, SettingsAt, Spoken, Ascii, Opt, Maybe, AsText, AsKind, OfKind, AsMesh, AsCurves, AsLight;
    Named("Material", OfOp(op));
    MaterialBack(op.patch);
  }

  lemma GroupOpBack(op: Op)
    requires op.InstanceOp? || op.CameraOp? || op.EnvironmentOp? || op.SettingsOp?
    ensures AsOp(OfOp(op)) == Some(op)
  {
    Named(OpName(op), OfOp(op));
    hide MaterialFields, MaterialAt, InstanceAt, CameraAt, EnvironmentAt, SettingsAt, Spoken, Ascii;
    match op {
      case InstanceOp(_, _, _, _, _, _) => InstanceBack(op);
      case CameraOp(_, _, _, _, _, _, _) => CameraOpBack(op);
      case EnvironmentOp(_, _, _, _) => EnvironmentBack(op);
      case SettingsOp(_, _, _, _, _, _) => SettingsBack(op);
    }
  }

  lemma OpBack(op: Op)
    ensures AsOp(OfOp(op)) == Some(op) && OfOp(op) != Nil
  {
    hide AsOp, OpFields, OpName;
    match op {
      case MeshOp(_, _) => PairBack(op);
      case CurvesOp(_, _) => PairBack(op);
      case LightOp(_, _) => PairBack(op);
      case Remove(_, _) => PairBack(op);
      case MaterialOp(_) => MaterialOpBack(op);
      case _ => GroupOpBack(op);
    }
  }

  lemma OpsBack()
    ensures Back(AsOp, OfOp)
  {
    forall op ensures AsOp(OfOp(op)) == Some(op) && OfOp(op) != Nil { OpBack(op); }
  }

  lemma ChangesBack(ops: seq<Op>)
    ensures AsChanges(OfChanges(ops)) == Some(ops)
  {
    OpsBack();
    hide AsOp, OfOp, Back;
    ListBack(AsOp, OfOp, ops);
    hide AsList, Vec;
  }

  lemma CameraBack(c: Camera)
    ensures AsCamera(OfCamera(c)) == Some(c)
  {
    Vec3Back();
    FloatBack();
    MaybeBack(AsFloat, OfFloat, c.focusDistance);
    hide AsVec3, OfVec3, Maybe, Opt;
  }

  /** Every request is read from its tree as itself. */
  lemma RequestBack(r: Request)
    ensures AsRequest(OfRequest(r)) == Some(r)
  {
    Named(RequestName(r), OfRequest(r));
    match r {
      case Hello(_, token) => TextReads(token);
      case Replace(changes) => hide AsChanges, OfChanges; ChangesBack(changes);
      case Apply(changes) => hide AsChanges, OfChanges; ChangesBack(changes);
      case SetCamera(camera) => hide AsCamera, OfCamera; CameraBack(camera);
      case Resize(_, _) =>
      case Ping =>
    }
  }

  /** The receiver reads every request as the client meant it, field by field and
      to the last byte. */
  lemma RequestsArrive(r: Request)
    requires Fits(OfRequest(r))
    ensures ReadRequest(Encoding(OfRequest(r))) == Got(r, |Encoding(OfRequest(r))|)
  {
    var p := Encoding(OfRequest(r));
    assert p[0..0 + |p|] == p;
    hide AsRequest, OfRequest, Encoding, ReadTree;
    TreeReadsBack(p, 0, OfRequest(r));
    RequestBack(r);
  }

  // ---------------------------------------------------------------- so nothing is confused

  /** Distinct requests never share their bytes, whatever follows them. */
  lemma RequestsAreUniquelyDecodable(a: Request, b: Request, s: Bytes, t: Bytes)
    requires Fits(OfRequest(a)) && Fits(OfRequest(b))
    requires Encoding(OfRequest(a)) + s == Encoding(OfRequest(b)) + t
    ensures a == b && s == t
  {
    hide OfRequest, Encoding, Fits;
    PrefixFree(OfRequest(a), OfRequest(b), s, t);
    RequestBack(a);
    RequestBack(b);
  }

  /** All thirty fields of a material survive. */
  lemma MaterialSame(a: MaterialPatch, b: MaterialPatch)
    requires MaterialFields(a) == MaterialFields(b)
    ensures a == b
  {
    hide MaterialFields, MaterialAt;
    MaterialBack(a);
    MaterialBack(b);
  }

  lemma OpSame(a: Op, b: Op)
    requires OfOp(a) == OfOp(b)
    ensures a == b
  {
    hide OfOp, AsOp;
    OpBack(a);
    OpBack(b);
  }

  /** Different values have different trees, and none is nil. */
  ghost predicate Spells<T(!new)>(f: T -> Wire) {
    (forall a, b :: f(a) == f(b) ==> a == b) && forall a :: f(a) != Nil
  }

  /** The three states of a doubly optional field stay apart on the wire: absent,
      cleared and set never share their bytes, whatever the payload type is. */
  lemma ResetStatesStayApart<T(!new)>(f: T -> Wire, a: Option<Reset<T>>, b: Option<Reset<T>>, s: Bytes, t: Bytes)
    requires Spells(f) && Fits(Opt(x => Resettable(f, x), a)) && Fits(Opt(x => Resettable(f, x), b))
    requires Encoding(Opt(x => Resettable(f, x), a)) + s == Encoding(Opt(x => Resettable(f, x), b)) + t
    ensures a == b && s == t
  {
    hide Encoding, Fits;
    PrefixFree(Opt(x => Resettable(f, x), a), Opt(x => Resettable(f, x), b), s, t);
    if a.Some? && b.Some? { assert Resettable(f, a.value) == Resettable(f, b.value); }
  }
}
