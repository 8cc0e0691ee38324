/*
 * Lua unit materials: the draw state a Lua gadget attaches to a unit (a
 * shader, a fixed number of texture units, display lists and camera flags),
 * the three-level ordering the renderer sorts that state by, the
 * normalisation applied before a material is used, the LOD and custom
 * uniform setters, and the reference-counted bins that group units sharing
 * an equal material.
 */
module LuaMaterial {

  /** Number of texture units of a material (`LuaMatTexture::maxTexUnits`). */
  const MaxTexUnits: nat

  /** Number of material types (`LUAMAT_TYPE_COUNT`); types are `0 .. MatTypeCount - 1`. */
  const MatTypeCount: nat

  /** Modulus of an `unsigned int`. */
  const U32: nat := 0x1_0000_0000

  // Enumerators, numbered in declaration order.
  const ShaderNone: int := 0
  const ShaderGL: int := 1
  const Shader3DO: int := 2
  const ShaderS3O: int := 3

  const TexNone: int := 0
  const TexGL: int := 1
  const TexShadowMap: int := 2
  const TexReflection: int := 3
  const TexSpecular: int := 4

  datatype LuaMatShader = LuaMatShader(shaderType: int, openglID: nat)

  datatype LuaMatTexture = LuaMatTexture(texType: int, openglID: nat, enable: bool)

  datatype Material = Material(
    matType: int,
    order: int,
    shader: LuaMatShader,
    texCount: int,
    textures: seq<LuaMatTexture>,
    preList: nat,
    postList: nat,
    useCamera: bool,
    cameraLoc: int)

  /** A material as the engine holds it: one entry per texture unit, and a texture
      count (set by `Finalize`) that does not exceed the number of units. */
  predicate WellFormed(m: Material) {
    |m.textures| == MaxTexUnits && 0 <= m.texCount <= MaxTexUnits
  }

  // ---------------------------------------------------------------------------
  // Ordering

  /** The comparator's answer for two values already known to differ. */
  function Order(x: int, y: int): (r: int)
    ensures r == -1 || r == 1
    ensures r == -1 <==> x < y
  {
    if x < y then -1 else 1
  }

  /** Lexicographic three-way comparison of two keys of equal length: the sign of the
      first position where they differ, or 0. */
  function CompareLex(xs: seq<int>, ys: seq<int>): (r: int)
    requires |xs| == |ys|
    ensures r == -1 || r == 0 || r == 1
  {
    if xs == [] then 0
    else if xs[0] != ys[0] then Order(xs[0], ys[0])
    else CompareLex(xs[1..], ys[1..])
  }

  lemma {:induction false} CompareLexZero(xs: seq<int>, ys: seq<int>)
    requires |xs| == |ys|
    ensures CompareLex(xs, ys) == 0 <==> xs == ys
  {
    if xs != [] && xs[0] == ys[0] {
      CompareLexZero(xs[1..], ys[1..]);
      assert xs == [xs[0]] + xs[1..] && ys == [ys[0]] + ys[1..];
    }
  }

  lemma {:induction false} CompareLexAntisymmetric(xs: seq<int>, ys: seq<int>)
    requires |xs| == |ys|
    ensures CompareLex(xs, ys) == -CompareLex(ys, xs)
  {
    if xs != [] && xs[0] == ys[0] {
      CompareLexAntisymmetric(xs[1..], ys[1..]);
    }
  }

  lemma {:induction false} CompareLexTransitive(xs: seq<int>, ys: seq<int>, zs: seq<int>)
    requires |xs| == |ys| == |zs|
    requires CompareLex(xs, ys) < 0 && CompareLex(ys, zs) < 0
    ensures CompareLex(xs, zs) < 0
  {
    if xs[0] == ys[0] && ys[0] == zs[0] {
      CompareLexTransitive(xs[1..], ys[1..], zs[1..]);
    }
  }

  /** What `LuaMatShader::Compare` looks at: the type, and the program only for GL. */
  function ShaderKey(s: LuaMatShader): seq<int> {
    [s.shaderType, if s.shaderType == ShaderGL then s.openglID else 0]
  }

  /** `LuaMatShader::Compare`. */
  function ShaderCompare(a: LuaMatShader, b: LuaMatShader): (r: int)
    ensures r == -1 || r == 0 || r == 1
  {
    if a.shaderType != b.shaderType then Order(a.shaderType, b.shaderType)
    else if a.shaderType == ShaderGL && a.openglID != b.openglID then Order(a.openglID, b.openglID)
    else 0
  }

  /** The shader comparison is a strict weak ordering: it is zero exactly on equal keys,
      swapping the arguments negates it, and "less" is transitive. */
  lemma ShaderCompareOrdering(a: LuaMatShader, b: LuaMatShader, c: LuaMatShader)
    ensures ShaderCompare(a, b) == 0
      <==> (a.shaderType == b.shaderType && (a.shaderType == ShaderGL ==> a.openglID == b.openglID))
    ensures ShaderCompare(a, a) == 0
    ensures ShaderCompare(a, b) == -ShaderCompare(b, a)
    ensures ShaderCompare(a, b) < 0 && ShaderCompare(b, c) < 0 ==> ShaderCompare(a, c) < 0
  {
    ShaderCompareLex(a, b);
    ShaderCompareLex(b, a);
    ShaderCompareLex(b, c);
    ShaderCompareLex(a, c);
    CompareLexZero(ShaderKey(a), ShaderKey(b));
    CompareLexAntisymmetric(ShaderKey(a), ShaderKey(b));
    if ShaderCompare(a, b) < 0 && ShaderCompare(b, c) < 0 {
      CompareLexTransitive(ShaderKey(a), ShaderKey(b), ShaderKey(c));
    }
  }

  /** What `LuaMatTexture::Compare` looks at: the type, the texture only for GL, then
      enabled before disabled. */
  function TextureKey(t: LuaMatTexture): seq<int> {
    [t.texType, if t.texType == TexGL then t.openglID else 0, if t.enable then 0 else 1]
  }

  /** `LuaMatTexture::Compare`. */
  function TextureCompare(a: LuaMatTexture, b: LuaMatTexture): (r: int)
    ensures r == -1 || r == 0 || r == 1
  {
    if a.texType != b.texType then Order(a.texType, b.texType)
    else if a.texType == TexGL && a.openglID != b.openglID then Order(a.openglID, b.openglID)
    else if a.enable != b.enable then (if a.enable then -1 else 1)
    else 0
  }

  lemma TextureCompareOrdering(a: LuaMatTexture, b: LuaMatTexture, c: LuaMatTexture)
    ensures TextureCompare(a, b) == 0
      <==> (a.texType == b.texType && a.enable == b.enable
        && (a.texType == TexGL ==> a.openglID == b.openglID))
    ensures TextureCompare(a, a) == 0
    ensures TextureCompare(a, b) == -TextureCompare(b, a)
    ensures TextureCompare(a, b) < 0 && TextureCompare(b, c) < 0 ==> TextureCompare(a, c) < 0
  {
    TextureCompareLex(a, b);
    TextureCompareLex(b, a);
    TextureCompareLex(b, c);
    TextureCompareLex(a, c);
    CompareLexZero(TextureKey(a), TextureKey(b));
    CompareLexAntisymmetric(TextureKey(a), TextureKey(b));
    if TextureCompare(a, b) < 0 && TextureCompare(b, c) < 0 {
      CompareLexTransitive(TextureKey(a), TextureKey(b), TextureKey(c));
    }
  }

  /** The shader comparison is the lexicographic comparison of the shader keys. */
  lemma ShaderCompareLex(a: LuaMatShader, b: LuaMatShader)
    ensures ShaderCompare(a, b) == CompareLex(ShaderKey(a), ShaderKey(b))
  {
    var ka, kb := ShaderKey(a), ShaderKey(b);
    assert CompareLex(ka[1..][1..], kb[1..][1..]) == 0;
    assert CompareLex(ka[1..], kb[1..]) == if ka[1] != kb[1] then Order(ka[1], kb[1]) else 0;
  }

  /** The texture comparison is the lexicographic comparison of the texture keys. */
  lemma TextureCompareLex(a: LuaMatTexture, b: LuaMatTexture)
    ensures TextureCompare(a, b) == CompareLex(TextureKey(a), TextureKey(b))
  {
    var ka, kb := TextureKey(a), TextureKey(b);
    assert CompareLex(ka[1..][1..][1..], kb[1..][1..][1..]) == 0;
    assert CompareLex(ka[1..][1..], kb[1..][1..]) == if ka[2] != kb[2] then Order(ka[2], kb[2]) else 0;
    assert CompareLex(ka[1..], kb[1..])
      == if ka[1] != kb[1] then Order(ka[1], kb[1]) else CompareLex(ka[1..][1..], kb[1..][1..]);
  }

  /** The first non-zero texture comparison among units `from .. n - 1`, or 0. */
  function TexturesCompare(ts: seq<LuaMatTexture>, us: seq<LuaMatTexture>, from: nat, n: nat): (r: int)
    requires from <= n <= |ts| && n <= |us|
    ensures r == -1 || r == 0 || r == 1
    decreases n - from
  {
    if from == n then 0
    else if TextureCompare(ts[from], us[from]) != 0 then TextureCompare(ts[from], us[from])
    else TexturesCompare(ts, us, from + 1, n)
  }

  /** Texture units `from .. n - 1` compare equal pairwise. */
  predicate TexturesTie(ts: seq<LuaMatTexture>, us: seq<LuaMatTexture>, from: nat, n: nat)
    requires from <= n <= |ts| && n <= |us|
  {
    forall i :: from <= i < n ==> TextureCompare(ts[i], us[i]) == 0
  }

  lemma {:induction false} TexturesCompareFacts(ts: seq<LuaMatTexture>, us: seq<LuaMatTexture>, from: nat, n: nat)
    requires from <= n <= |ts| && n <= |us|
    ensures TexturesCompare(ts, us, from, n) == 0 <==> TexturesTie(ts, us, from, n)
    ensures TexturesCompare(ts, us, from, n) == -TexturesCompare(us, ts, from, n)
    decreases n - from
  {
    if from < n {
      TexturesCompareFacts(ts, us, from + 1, n);
      TextureCompareOrdering(ts[from], us[from], us[from]);
    }
  }

  /** `LuaMaterial::Compare`: type, order, shader, the textures both materials use,
      texture count, the two display lists, camera use (with camera first), and the
      camera uniform location. The last step compares `a.cameraLoc` with itself, so
      two different locations come out as +1 whichever way round they are given. */
  function MaterialCompare(a: Material, b: Material): (r: int)
    requires WellFormed(a) && WellFormed(b)
    ensures r == -1 || r == 0 || r == 1
  {
    var maxTex := if a.texCount < b.texCount then a.texCount else b.texCount;
    if a.matType != b.matType then Order(a.matType, b.matType)
    else if a.order != b.order then Order(a.order, b.order)
    else if ShaderCompare(a.shader, b.shader) != 0 then ShaderCompare(a.shader, b.shader)
    else if TexturesCompare(a.textures, b.textures, 0, maxTex) != 0 then
      TexturesCompare(a.textures, b.textures, 0, maxTex)
    else if a.texCount != b.texCount then Order(a.texCount, b.texCount)
    else if a.preList != b.preList then Order(a.preList, b.preList)
    else if a.postList != b.postList then Order(a.postList, b.postList)
    else if a.useCamera != b.useCamera then (if a.useCamera then -1 else 1)
    else if a.cameraLoc != b.cameraLoc then Order(a.cameraLoc, a.cameraLoc)
    else 0
  }

  /** Every step up to and including camera use ties. */
  predicate TieBeforeCameraLoc(a: Material, b: Material)
    requires WellFormed(a) && WellFormed(b)
  {
    a.matType == b.matType && a.order == b.order && ShaderCompare(a.shader, b.shader) == 0
    && a.texCount == b.texCount && TexturesTie(a.textures, b.textures, 0, a.texCount)
    && a.preList == b.preList && a.postList == b.postList && a.useCamera == b.useCamera
  }

  /** The material comparison is zero exactly when every step ties, and in particular
      a material compares equal to itself. */
  lemma MaterialCompareZero(a: Material, b: Material)
    requires WellFormed(a) && WellFormed(b)
    ensures MaterialCompare(a, b) == 0 <==> TieBeforeCameraLoc(a, b) && a.cameraLoc == b.cameraLoc
    ensures MaterialCompare(a, a) == 0
  {
    var maxTex := if a.texCount < b.texCount then a.texCount else b.texCount;
    TexturesCompareFacts(a.textures, b.textures, 0, maxTex);
    TexturesCompareFacts(a.textures, a.textures, 0, a.texCount);
    ShaderCompareOrdering(a.shader, a.shader, a.shader);
    forall i | 0 <= i < a.texCount
      ensures TextureCompare(a.textures[i], a.textures[i]) == 0
    {
      TextureCompareOrdering(a.textures[i], a.textures[i], a.textures[i]);
    }
  }

  /** With equal camera locations, swapping the arguments negates the result. */
  lemma MaterialCompareAntisymmetric(a: Material, b: Material)
    requires WellFormed(a) && WellFormed(b) && a.cameraLoc == b.cameraLoc
    ensures MaterialCompare(a, b) == -MaterialCompare(b, a)
  {
    var maxTex := if a.texCount < b.texCount then a.texCount else b.texCount;
    TexturesCompareFacts(a.textures, b.textures, 0, maxTex);
    ShaderCompareOrdering(a.shader, b.shader, b.shader);
  }

  /** Antisymmetry fails only at the camera location step: when everything before it
      ties and the locations differ, each material is "greater" than the other. */
  lemma MaterialCompareCameraLoc(a: Material, b: Material)
    requires WellFormed(a) && WellFormed(b)
    ensures MaterialCompare(a, b) != -MaterialCompare(b, a)
      <==> TieBeforeCameraLoc(a, b) && a.cameraLoc != b.cameraLoc
    ensures TieBeforeCameraLoc(a, b) && a.cameraLoc != b.cameraLoc
      ==> MaterialCompare(a, b) == 1 && MaterialCompare(b, a) == 1
  {
    var maxTex := if a.texCount < b.texCount then a.texCount else b.texCount;
    TexturesCompareFacts(a.textures, b.textures, 0, maxTex);
    ShaderCompareOrdering(a.shader, b.shader, b.shader);
    if TieBeforeCameraLoc(a, b) {
      TexturesTieSymmetric(a.textures, b.textures, 0, a.texCount);
    }
  }

  lemma TexturesTieSymmetric(ts: seq<LuaMatTexture>, us: seq<LuaMatTexture>, from: nat, n: nat)
    requires from <= n <= |ts| && n <= |us|
    requires TexturesTie(ts, us, from, n)
    ensures TexturesTie(us, ts, from, n)
  {
    forall i | from <= i < n
      ensures TextureCompare(us[i], ts[i]) == 0
    {
      TextureCompareOrdering(ts[i], us[i], us[i]);
    }
  }

  /** Two materials that compare equal: the relation by which bins are found. */
  predicate Equivalent(a: Material, b: Material) {
    WellFormed(a) && WellFormed(b) && MaterialCompare(a, b) == 0
  }

  /** Comparing equal is an equivalence relation. */
  lemma EquivalentIsEquivalence(a: Material, b: Material, c: Material)
    ensures WellFormed(a) ==> Equivalent(a, a)
    ensures Equivalent(a, b) ==> Equivalent(b, a)
    ensures Equivalent(a, b) && Equivalent(b, c) ==> Equivalent(a, c)
  {
    if WellFormed(a) {
      MaterialCompareZero(a, a);
    }
    if Equivalent(a, b) {
      MaterialCompareZero(a, b);
      MaterialCompareZero(b, a);
      TexturesTieSymmetric(a.textures, b.textures, 0, a.texCount);
      ShaderCompareOrdering(a.shader, b.shader, b.shader);
      if Equivalent(b, c) {
        MaterialCompareZero(b, c);
        MaterialCompareZero(a, c);
        ShaderTieTransitive(a.shader, b.shader, c.shader);
        forall i | 0 <= i < a.texCount
          ensures TextureCompare(a.textures[i], c.textures[i]) == 0
        {
          TextureTieTransitive(a.textures[i], b.textures[i], c.textures[i]);
        }
      }
    }
  }

  lemma ShaderTieTransitive(a: LuaMatShader, b: LuaMatShader, c: LuaMatShader)
    requires ShaderCompare(a, b) == 0 && ShaderCompare(b, c) == 0
    ensures ShaderCompare(a, c) == 0
  {
    ShaderCompareOrdering(a, b, c);
    ShaderCompareOrdering(b, c, c);
    ShaderCompareOrdering(a, c, c);
  }

  lemma TextureTieTransitive(a: LuaMatTexture, b: LuaMatTexture, c: LuaMatTexture)
    requires TextureCompare(a, b) == 0 && TextureCompare(b, c) == 0
    ensures TextureCompare(a, c) == 0
  {
    TextureCompareOrdering(a, b, c);
    TextureCompareOrdering(b, c, c);
    TextureCompareOrdering(a, c, c);
  }

  /** `LuaMaterial::Compare` as the source runs it, with the loop over texture units. */
  method Compare(a: Material, b: Material) returns (cmp: int)
    requires WellFormed(a) && WellFormed(b)
    ensures cmp == MaterialCompare(a, b)
  {
    if a.matType != b.matType {
      return Order(a.matType, b.matType);
    }
    if a.order != b.order {
      return Order(a.order, b.order);
    }
    cmp := ShaderCompare(a.shader, b.shader);
    if cmp != 0 {
      return;
    }
    var maxTex := if a.texCount < b.texCount then a.texCount else b.texCount;
    var t := 0;
    while t < maxTex
      invariant 0 <= t <= maxTex
      invariant TexturesCompare(a.textures, b.textures, 0, maxTex)
        == TexturesCompare(a.textures, b.textures, t, maxTex)
    {
      cmp := TextureCompare(a.textures[t], b.textures[t]);
      if cmp != 0 {
        return;
      }
      t := t + 1;
    }
    if a.texCount != b.texCount {
      return Order(a.texCount, b.texCount);
    }
    if a.preList != b.preList {
      return Order(a.preList, b.preList);
    }
    if a.postList != b.postList {
      return Order(a.postList, b.postList);
    }
    if a.useCamera != b.useCamera {
      return if a.useCamera then -1 else 1;
    }
    if a.cameraLoc != b.cameraLoc {
      return Order(a.cameraLoc, a.cameraLoc);
    }
    return 0;
  }

  // ---------------------------------------------------------------------------
  // Finalize

  /** `LuaMatShader::Finalize`: only a GL shader keeps its program id. */
  function ShaderFinalized(s: LuaMatShader): (r: LuaMatShader)
    ensures r.shaderType == s.shaderType
    ensures r.shaderType == ShaderGL ==> r == s
    ensures r.shaderType != ShaderGL ==> r.openglID == 0
  {
    if s.shaderType != ShaderGL then s.(openglID := 0) else s
  }

  lemma ShaderFinalizedIdempotent(s: LuaMatShader)
    ensures ShaderFinalized(ShaderFinalized(s)) == ShaderFinalized(s)
  {
  }

  /** One pass of the body of `LuaMatTexture::Finalize`'s loop. */
  function TexturePass(t: LuaMatTexture): LuaMatTexture {
    var t1 := if t.texType == TexGL && t.openglID == 0 then t.(texType := TexNone) else t;
    var t2 := if t1.texType == TexNone then t1.(enable := false) else t1;
    if t2.texType != TexGL then t2.(openglID := 0) else t2
  }

  /** `LuaMatTexture::Finalize`: its loop repeats the same pass once per texture unit,
      so with no texture units the texture is left as it is. */
  function TextureFinalized(t: LuaMatTexture): LuaMatTexture {
    if MaxTexUnits == 0 then t else TexturePass(t)
  }

  /** What the pass guarantees, and that a second pass changes nothing. */
  lemma TexturePassFacts(t: LuaMatTexture)
    ensures var r := TexturePass(t);
      (t.texType == TexGL && t.openglID == 0 ==> r.texType == TexNone)
      && (t.texType != TexGL || t.openglID != 0 ==> r.texType == t.texType)
      && (r.texType == TexNone ==> !r.enable)
      && (r.texType != TexNone ==> r.enable == t.enable)
      && (r.texType != TexGL ==> r.openglID == 0)
      && (r.texType == TexGL ==> r.openglID == t.openglID && r.openglID != 0)
      && TexturePass(r) == r
  {
  }

  lemma TextureFinalizedIdempotent(t: LuaMatTexture)
    ensures TextureFinalized(TextureFinalized(t)) == TextureFinalized(t)
  {
    TexturePassFacts(t);
  }

  /** `LuaMatTexture::Finalize` as written: a loop over the texture units whose body
      does not depend on the unit. */
  method FinalizeTexture(tex: LuaMatTexture) returns (r: LuaMatTexture)
    ensures r == TextureFinalized(tex)
  {
    r := tex;
    var t := 0;
    while t < MaxTexUnits
      invariant 0 <= t <= MaxTexUnits
      invariant r == if t == 0 then tex else TexturePass(tex)
    {
      if r.texType == TexGL && r.openglID == 0 {
        r := r.(texType := TexNone);
      }
      if r.texType == TexNone {
        r := r.(enable := false);
      }
      if r.texType != TexGL {
        r := r.(openglID := 0);
      }
      TexturePassFacts(tex);
      t := t + 1;
    }
  }

  /** One past the highest unit below `n` whose texture is not NONE, or 0 when all of
      them are NONE. */
  function TexCountBelow(ts: seq<LuaMatTexture>, n: nat): (c: nat)
    requires n <= |ts|
    ensures c <= n
    ensures c > 0 ==> ts[c - 1].texType != TexNone
    ensures forall i :: c <= i < n ==> ts[i].texType == TexNone
  {
    if n == 0 then 0
    else if ts[n - 1].texType != TexNone then n
    else TexCountBelow(ts, n - 1)
  }

  function TexturesFinalized(ts: seq<LuaMatTexture>): (r: seq<LuaMatTexture>)
    ensures |r| == |ts| && forall i :: 0 <= i < |ts| ==> r[i] == TextureFinalized(ts[i])
  {
    seq(|ts|, i requires 0 <= i < |ts| => TextureFinalized(ts[i]))
  }

  /** `LuaMaterial::Finalize`: the shader and every texture are finalized, and the
      texture count is recomputed from the finalized textures. */
  function MaterialFinalized(m: Material): Material {
    var ts := TexturesFinalized(m.textures);
    m.(shader := ShaderFinalized(m.shader), textures := ts, texCount := TexCountBelow(ts, |ts|))
  }

  /** After `Finalize` the material is well formed, its texture count is one past the
      last texture in use, and finalizing again changes nothing. */
  lemma MaterialFinalizedFacts(m: Material)
    requires |m.textures| == MaxTexUnits
    ensures var r := MaterialFinalized(m);
      WellFormed(r)
      && (r.texCount > 0 ==> r.textures[r.texCount - 1].texType != TexNone)
      && (forall i :: r.texCount <= i < MaxTexUnits ==> r.textures[i].texType == TexNone)
      && (r.shader.shaderType != ShaderGL ==> r.shader.openglID == 0)
      && MaterialFinalized(r) == r
  {
    var ts := TexturesFinalized(m.textures);
    forall i | 0 <= i < |ts|
      ensures TextureFinalized(ts[i]) == ts[i]
    {
      TextureFinalizedIdempotent(m.textures[i]);
    }
    assert TexturesFinalized(ts) == ts;
  }

  /** The loop of `LuaMaterial::Finalize`: each texture unit is finalized in turn and,
      when still in use, raises the count to one past its index. */
  method FinalizeUnits(ts: seq<LuaMatTexture>) returns (fs: seq<LuaMatTexture>, texCount: nat)
    ensures fs == TexturesFinalized(ts)
    ensures texCount == TexCountBelow(fs, |fs|)
  {
    texCount := 0;
    fs := ts;
    ghost var done := TexturesFinalized(ts);
    var t := 0;
    while t < |ts|
      invariant 0 <= t <= |ts| == |fs|
      invariant forall i :: 0 <= i < t ==> fs[i] == done[i]
      invariant forall i :: t <= i < |ts| ==> fs[i] == ts[i]
      invariant texCount == TexCountBelow(done, t)
    {
      var tex := FinalizeTexture(fs[t]);
      fs := fs[t := tex];
      if tex.texType != TexNone {
        texCount := t + 1;
      }
      t := t + 1;
    }
    assert fs == done;
  }

  /** `LuaMaterial::Finalize` as written: the shader is finalized, then the texture
      units and the count. */
  method FinalizeMaterial(m: Material) returns (r: Material)
    requires |m.textures| == MaxTexUnits
    ensures r == MaterialFinalized(m)
  {
    var shader := ShaderFinalized(m.shader);
    var textures, texCount := FinalizeUnits(m.textures);
    r := m.(shader := shader, textures := textures, texCount := texCount);
  }

  // ---------------------------------------------------------------------------
  // Unit uniforms and LOD materials

  /** `LuaUnitUniforms`: uniform locations of a unit shader and a buffer of custom
      values (`null` when there are none). */
  class LuaUnitUniforms {
    var haveUniforms: bool
    var speedLoc: int
    var healthLoc: int
    var unitIDLoc: int
    var teamIDLoc: int
    var customLoc: int
    var customCount: int
    var customData: array?<real>

    /** `SetCustomCount(count)`: a fresh zeroed buffer of `count` values for a positive
        count, no buffer otherwise. */
    method SetCustomCount(count: int)
      modifies this`customCount, this`customData
      ensures customCount == count
      ensures count > 0 ==> (customData != null && fresh(customData)
        && customData.Length == count && forall i :: 0 <= i < count ==> customData[i] == 0.0)
      ensures count <= 0 ==> customData == null
    {
      customCount := count;
      if count > 0 {
        customData := new real[count](_ => 0.0);
      } else {
        customData := null;
      }
    }

    /** `operator=`: every field is copied and, for a positive count, the custom values
        are copied into a buffer of this object's own. */
    method Assign(u: LuaUnitUniforms)
      requires u != this
      requires u.customCount > 0 ==> u.customData != null && u.customData.Length >= u.customCount
      modifies this
      ensures haveUniforms == u.haveUniforms && speedLoc == u.speedLoc && healthLoc == u.healthLoc
      ensures unitIDLoc == u.unitIDLoc && teamIDLoc == u.teamIDLoc && customLoc == u.customLoc
      ensures customCount == u.customCount
      ensures customCount > 0 ==> (customData != null && fresh(customData)
        && customData[..] == u.customData[..customCount])
      ensures customCount <= 0 ==> customData == null
      ensures unchanged(u)
    {
      customData := null;
      haveUniforms := u.haveUniforms;
      speedLoc := u.speedLoc;
      healthLoc := u.healthLoc;
      unitIDLoc := u.unitIDLoc;
      teamIDLoc := u.teamIDLoc;
      customLoc := u.customLoc;
      customCount := u.customCount;
      if customCount > 0 {
        var data := new real[customCount];
        var i := 0;
        while i < customCount
          invariant 0 <= i <= customCount
          invariant data[..i] == u.customData[..i]
          modifies data
        {
          data[i] := u.customData[i];
          i := i + 1;
        }
        customData := data;
      }
    }
  }

  /** One LOD level of a unit material; its contents are not modelled. */
  datatype LuaUnitLODMaterial = DefaultLODMaterial | LODMaterial(bin: nat)

  /** `n` elements: the first ones kept, any new ones default-constructed, as
      `std::vector::resize` does. */
  function Resized(s: seq<LuaUnitLODMaterial>, n: nat): (r: seq<LuaUnitLODMaterial>)
    ensures |r| == n
    ensures forall i :: 0 <= i < n && i < |s| ==> r[i] == s[i]
    ensures forall i :: |s| <= i < n ==> r[i] == DefaultLODMaterial
  {
    if n <= |s| then s[..n] else s + seq(n - |s|, _ => DefaultLODMaterial)
  }

  /** `count - 1` in `unsigned int` arithmetic. */
  function PredU32(count: nat): (r: nat)
    requires count < U32
    ensures r < U32
    ensures (r + 1) % U32 == count
  {
    if count == 0 then U32 - 1 else count - 1
  }

  /** `LuaUnitMaterial`: the LOD levels of a unit material and the last one in use. */
  class LuaUnitMaterial {
    var lodCount: nat
    var lastLOD: nat
    var lodMats: seq<LuaUnitLODMaterial>

    ghost predicate Valid()
      reads this
    {
      lodCount < U32 && lastLOD < U32
    }

    /** `SetLODCount(count)`: `lastLOD` becomes `count - 1`, which for a count of zero
        wraps to the largest `unsigned int`. */
    method SetLODCount(count: nat) returns (ok: bool)
      requires count < U32
      modifies this
      ensures Valid() && ok
      ensures lodCount == count && lastLOD == PredU32(count)
      ensures lodMats == Resized(old(lodMats), count)
    {
      lodCount := count;
      lastLOD := PredU32(lodCount);
      lodMats := Resized(lodMats, count);
      ok := true;
    }

    /** `SetLastLOD(lod)`: the last LOD is capped at `lodCount - 1`, unsigned. */
    method SetLastLOD(lod: nat) returns (ok: bool)
      requires Valid() && lod < U32
      modifies this`lastLOD
      ensures Valid() && ok
      ensures lastLOD <= lod && lastLOD <= PredU32(lodCount)
      ensures lastLOD == lod || lastLOD == PredU32(lodCount)
    {
      var top := PredU32(lodCount);
      lastLOD := if lod < top then lod else top;
      ok := true;
    }
  }

  // ---------------------------------------------------------------------------
  // Bins, references and the handler

  /** `LuaMatBin`: a material shared by the units whose materials compare equal to it,
      with the number of references held to it. */
  class LuaMatBin {
    const material: Material
    var refCount: int

    constructor (mat: Material)
      ensures material == mat && refCount == 0
    {
      material := mat;
      refCount := 0;
    }

    method Ref()
      modifies this`refCount
      ensures refCount == old(refCount) + 1
    {
      refCount := refCount + 1;
    }

    /** `UnRef`: drops a reference; the last one frees the bin from the handler. */
    method UnRef(h: LuaMatHandler)
      requires h.Valid() && WellFormed(material) && 0 <= material.matType < MatTypeCount
      modifies this`refCount, h`binTypes
      ensures h.Valid()
      ensures refCount == old(refCount) - 1
      ensures refCount > 0 ==> h.binTypes == old(h.binTypes)
      ensures refCount <= 0 ==> h.binTypes == old(h.binTypes)[material.matType
        := Unequivalent(old(h.binTypes[material.matType]), material)]
    {
      refCount := refCount - 1;
      if refCount <= 0 {
        h.FreeBin(this);
      }
    }
  }

  /** The bins of `bins` whose material does not compare equal to `mat`. */
  ghost function Unequivalent(bins: set<LuaMatBin>, mat: Material): (r: set<LuaMatBin>)
    ensures r <= bins
    ensures forall b :: b in bins ==> (b in r <==> !Equivalent(b.material, mat))
  {
    set b | b in bins && !Equivalent(b.material, mat)
  }

  /** `LuaMatRef`: a counted reference to a bin, or to none. */
  class LuaMatRef {
    var bin: LuaMatBin?

    /** `LuaMatRef(bin)`: takes a reference to the bin. */
    constructor (b: LuaMatBin?)
      modifies b
      ensures bin == b
      ensures b != null ==> b.refCount == old(b.refCount) + 1
    {
      bin := b;
      new;
      if b != null {
        b.Ref();
      }
    }

    /** The copy constructor: a second reference to the same bin. */
    constructor Copy(mr: LuaMatRef)
      modifies mr.bin
      ensures bin == mr.bin
      ensures mr.bin != null ==> mr.bin.refCount == old(mr.bin.refCount) + 1
    {
      bin := mr.bin;
      new;
      if bin != null {
        bin.Ref();
      }
    }

    /** A bin this reference may hold: one the handler can free. */
    ghost predicate Holdable(b: LuaMatBin?)
    {
      b != null ==> WellFormed(b.material) && 0 <= b.material.matType < MatTypeCount
    }

    /** `Reset`: drops the reference held, if any. */
    method Reset(h: LuaMatHandler)
      requires h.Valid() && Holdable(bin)
      modifies this, bin, h
      ensures h.Valid() && bin == null
      ensures old(bin) != null ==> old(bin).refCount == old(bin.refCount) - 1
      ensures old(bin) != null && old(bin).refCount > 0 ==> h.binTypes == old(h.binTypes)
      ensures old(bin) != null && old(bin).refCount <= 0
        ==> h.binTypes == old(h.binTypes)[old(bin.material.matType)
              := Unequivalent(old(h.binTypes[bin.material.matType]), old(bin.material))]
      ensures old(bin) == null ==> h.binTypes == old(h.binTypes)
    {
      if bin != null {
        bin.UnRef(h);
      }
      bin := null;
    }

    /** `operator=`: a different bin is released and the new one referenced; the same
        bin (self-assignment included) changes nothing. */
    method Assign(mr: LuaMatRef, h: LuaMatHandler)
      requires h.Valid() && Holdable(bin)
      modifies this, bin, mr.bin, h
      ensures h.Valid() && bin == old(mr.bin)
      ensures old(bin) == old(mr.bin) ==> unchanged(h) && (old(bin) != null ==> unchanged(old(bin)))
      ensures old(bin) != old(mr.bin) && old(bin) != null
        ==> old(bin).refCount == old(bin.refCount) - 1
      ensures old(bin) != old(mr.bin) && bin != null ==> bin.refCount == old(mr.bin.refCount) + 1
      ensures old(bin) != old(mr.bin) && old(bin) == null ==> h.binTypes == old(h.binTypes)
      ensures old(bin) != old(mr.bin) && old(bin) != null && old(bin).refCount > 0
        ==> h.binTypes == old(h.binTypes)
      ensures old(bin) != old(mr.bin) && old(bin) != null && old(bin).refCount <= 0
        ==> h.binTypes == old(h.binTypes)[old(bin.material.matType)
              := Unequivalent(old(h.binTypes[bin.material.matType]), old(bin.material))]
    {
      if bin != mr.bin {
        if bin != null {
          bin.UnRef(h);
        }
        bin := mr.bin;
        if bin != null {
          bin.Ref();
        }
      }
    }
  }

  /** `LuaMatHandler`: one set of bins per material type. */
  class LuaMatHandler {
    var binTypes: seq<set<LuaMatBin>>

    /** One set per type; every bin sits in the set of its material's type, holds a well
        formed material, and no two bins of a set compare equal. */
    ghost predicate Valid()
      reads this
    {
      |binTypes| == MatTypeCount
      && (forall m, b :: 0 <= m < |binTypes| && b in binTypes[m]
            ==> b.material.matType == m && WellFormed(b.material))
      && (forall m, b0, b1 :: (0 <= m < |binTypes| && b0 in binTypes[m] && b1 in binTypes[m]
            && Equivalent(b0.material, b1.material)) ==> b0 == b1)
    }

    constructor ()
      ensures Valid() && forall m :: 0 <= m < MatTypeCount ==> binTypes[m] == {}
    {
      binTypes := seq(MatTypeCount, _ => {});
    }

    /** `GetRef(mat)`: an untyped material gets an empty reference; otherwise the bin
        of the same type whose material compares equal is referenced, and only when
        there is none is a new bin made and added. */
    method GetRef(mat: Material) returns (r: LuaMatRef)
      requires Valid() && WellFormed(mat)
      modifies this, if 0 <= mat.matType < |binTypes| then binTypes[mat.matType] else {}
      ensures Valid() && fresh(r)
      ensures !(0 <= mat.matType < MatTypeCount) ==> r.bin == null && binTypes == old(binTypes)
      ensures 0 <= mat.matType < MatTypeCount ==> (r.bin != null
        && r.bin in binTypes[mat.matType] && Equivalent(r.bin.material, mat))
      ensures 0 <= mat.matType < MatTypeCount && r.bin in old(binTypes[mat.matType])
        ==> binTypes == old(binTypes)
      ensures 0 <= mat.matType < MatTypeCount && r.bin !in old(binTypes[mat.matType])
        ==> (fresh(r.bin) && r.bin.material == mat && r.bin.refCount == 1
          && Unequivalent(old(binTypes[mat.matType]), mat) == old(binTypes[mat.matType])
          && binTypes == old(binTypes)[mat.matType := old(binTypes[mat.matType]) + {r.bin}])
      ensures forall b :: (b in old(Bins(mat.matType))
        ==> b.refCount == old(b.refCount) + (if b == r.bin then 1 else 0))
    {
      if mat.matType < 0 || mat.matType >= MatTypeCount {
        r := new LuaMatRef(null);
        return;
      }
      var binSet := binTypes[mat.matType];
      if found :| found in binSet && Equivalent(found.material, mat) {
        r := new LuaMatRef(found);
        return;
      }
      var bin := new LuaMatBin(mat);
      binTypes := binTypes[mat.matType := binSet + {bin}];
      EquivalentIsEquivalence(mat, mat, mat);
      forall b0, b1 | b0 in binTypes[mat.matType] && b1 in binTypes[mat.matType]
          && Equivalent(b0.material, b1.material)
        ensures b0 == b1
      {
        EquivalentIsEquivalence(b0.material, b1.material, mat);
        EquivalentIsEquivalence(b1.material, b0.material, mat);
      }
      r := new LuaMatRef(bin);
    }

    /** The bins of one type, none for an out-of-range type. */
    ghost function Bins(t: int): set<LuaMatBin>
      reads this
    {
      if 0 <= t < |binTypes| then binTypes[t] else {}
    }

    /** `FreeBin(bin)`: the bin of the same type that compares equal to `bin`, if any,
        leaves its set. */
    method FreeBin(bin: LuaMatBin)
      requires Valid() && WellFormed(bin.material) && 0 <= bin.material.matType < MatTypeCount
      modifies this`binTypes
      ensures Valid()
      ensures binTypes == old(binTypes)[bin.material.matType
        := Unequivalent(old(binTypes[bin.material.matType]), bin.material)]
    {
      var t := bin.material.matType;
      var binSet := binTypes[t];
      if found :| found in binSet && Equivalent(found.material, bin.material) {
        forall b | b in binSet && Equivalent(b.material, bin.material)
          ensures b == found
        {
          EquivalentIsEquivalence(b.material, bin.material, found.material);
          EquivalentIsEquivalence(found.material, bin.material, bin.material);
        }
        assert binSet - {found} == Unequivalent(binSet, bin.material);
        binTypes := binTypes[t := binSet - {found}];
      } else {
        assert binSet == Unequivalent(binSet, bin.material);
      }
    }

    /** `ClearBins(type)`: the bins whose `Clear` is called, every bin of the type, or
        none for an out-of-range type. Which bins exist does not change. */
    method ClearBins(t: int) returns (cleared: set<LuaMatBin>)
      requires Valid()
      ensures 0 <= t < MatTypeCount ==> cleared == binTypes[t]
      ensures !(0 <= t < MatTypeCount) ==> cleared == {}
    {
      cleared := {};
      if t < 0 || t >= MatTypeCount {
        return;
      }
      var rest := binTypes[t];
      while rest != {}
        invariant cleared + rest == binTypes[t]
        decreases rest
      {
        var bin :| bin in rest;
        cleared := cleared + {bin};
        rest := rest - {bin};
      }
    }

    /** `ClearBins()`: every bin of every type. */
    method ClearAllBins() returns (cleared: set<LuaMatBin>)
      requires Valid()
      ensures forall b :: b in cleared <==> exists m :: 0 <= m < MatTypeCount && b in binTypes[m]
    {
      cleared := {};
      var m := 0;
      while m < MatTypeCount
        invariant 0 <= m <= MatTypeCount
        invariant forall b :: b in cleared <==> exists k :: 0 <= k < m && b in binTypes[k]
      {
        var some := ClearBins(m);
        cleared := cleared + some;
        m := m + 1;
      }
    }
  }
}
