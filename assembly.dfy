/** Buffer assembly: how one sprite command becomes one quad of geometry (four
    vertices with position, colour and UV, six indices) and one draw call. */
module Assembly {
  import opened Types

  // ---------------------------------------------------------------------------
  // Texture coordinates
  // ---------------------------------------------------------------------------

  /** The divisor that normalises a pixel coordinate along one axis: the texture's
      size on that axis, or 1 when that size is zero. */
  function UvScale(dim: int): (r: real)
    ensures r != 0.0
  {
    if dim != 0 then dim as real else 1.0
  }

  /** The four U and the four V values of a quad, one per vertex, in the vertex
      order bottom-left, bottom-right, top-right, top-left. */
  datatype Uvs = Uvs(us: seq<real>, vs: seq<real>)

  /** The normalised corners of a pixel rectangle, before any flip. */
  function UnflippedUvs(texture: Texture, uvs: (Vec2i, Vec2i)): (r: Uvs)
    ensures |r.us| == 4 && |r.vs| == 4
  {
    var uScale := UvScale(texture.w);
    var vScale := UvScale(texture.h);
    Uvs([uvs.0.x as real / uScale, uvs.1.x as real / uScale,
         uvs.1.x as real / uScale, uvs.0.x as real / uScale],
        [uvs.0.y as real / vScale, uvs.0.y as real / vScale,
         uvs.1.y as real / vScale, uvs.1.y as real / vScale])
  }

  /** Exchanges two elements of a sequence, as `Vec::swap` does. */
  function Swap(s: seq<real>, i: nat, j: nat): (r: seq<real>)
    requires i < |s| && j < |s|
    ensures |r| == |s| && r[i] == s[j] && r[j] == s[i]
    ensures forall k :: 0 <= k < |s| && k != i && k != j ==> r[k] == s[k]
  {
    s[i := s[j]][j := s[i]]
  }

  /** A horizontal flip: the U values of vertices 0 and 1, and of 2 and 3, trade places. */
  function FlipX(us: seq<real>): seq<real>
    requires |us| == 4
  {
    Swap(Swap(us, 0, 1), 2, 3)
  }

  /** A vertical flip: the V values of vertices 0 and 2, and of 1 and 3, trade places. */
  function FlipY(vs: seq<real>): seq<real>
    requires |vs| == 4
  {
    Swap(Swap(vs, 0, 2), 1, 3)
  }

  function ApplyFlip(flip: TextureFlip, uv: Uvs): Uvs
    requires |uv.us| == 4 && |uv.vs| == 4
  {
    Uvs(if flip.x then FlipX(uv.us) else uv.us,
        if flip.y then FlipY(uv.vs) else uv.vs)
  }

  /** The texture coordinates a sprite command puts on its four vertices. */
  function SpriteUvs(texture: Texture, uvs: (Vec2i, Vec2i), flip: TextureFlip): Uvs {
    ApplyFlip(flip, UnflippedUvs(texture, uvs))
  }

  /** Normalisation: each U times the U scale gives back the pixel x of its corner
      (x0, x1, x1, x0), each V times the V scale the pixel y (y0, y0, y1, y1); a
      zero-sized axis keeps the pixel values themselves. */
  lemma UnflippedUvsCorners(texture: Texture, uvs: (Vec2i, Vec2i))
    ensures var r := UnflippedUvs(texture, uvs);
      && r.us[0] * UvScale(texture.w) == uvs.0.x as real
      && r.us[1] * UvScale(texture.w) == uvs.1.x as real
      && r.us[2] * UvScale(texture.w) == uvs.1.x as real
      && r.us[3] * UvScale(texture.w) == uvs.0.x as real
      && r.vs[0] * UvScale(texture.h) == uvs.0.y as real
      && r.vs[1] * UvScale(texture.h) == uvs.0.y as real
      && r.vs[2] * UvScale(texture.h) == uvs.1.y as real
      && r.vs[3] * UvScale(texture.h) == uvs.1.y as real
    ensures texture.w == 0 ==> UnflippedUvs(texture, uvs).us == [uvs.0.x as real, uvs.1.x as real, uvs.1.x as real, uvs.0.x as real]
    ensures texture.h == 0 ==> UnflippedUvs(texture, uvs).vs == [uvs.0.y as real, uvs.0.y as real, uvs.1.y as real, uvs.1.y as real]
    ensures texture.w != 0 ==> UvScale(texture.w) == texture.w as real
    ensures texture.h != 0 ==> UvScale(texture.h) == texture.h as real
  {
  }

  /** The flips as permutations of the four values. */
  lemma FlipShapes(s: seq<real>)
    requires |s| == 4
    ensures FlipX(s) == [s[1], s[0], s[3], s[2]]
    ensures FlipY(s) == [s[2], s[3], s[0], s[1]]
  {
  }

  /** X touches only the U values and Y only the V values. */
  lemma FlipsAreIndependent(flip: TextureFlip, uv: Uvs)
    requires |uv.us| == 4 && |uv.vs| == 4
    ensures !flip.y ==> ApplyFlip(flip, uv).vs == uv.vs
    ensures !flip.x ==> ApplyFlip(flip, uv).us == uv.us
  {
  }

  /** Any flip undone by the same flip; X then Y is Y then X is both together. */
  lemma FlipsCompose(flip: TextureFlip, uv: Uvs)
    requires |uv.us| == 4 && |uv.vs| == 4
    ensures ApplyFlip(flip, ApplyFlip(flip, uv)) == uv
    ensures ApplyFlip(TextureFlip(true, false), ApplyFlip(TextureFlip(false, true), uv))
         == ApplyFlip(TextureFlip(true, true), uv)
         == ApplyFlip(TextureFlip(false, true), ApplyFlip(TextureFlip(true, false), uv))
  {
    FlipShapes(uv.us);
    FlipShapes(uv.vs);
  }

  // ---------------------------------------------------------------------------
  // Geometry
  // ---------------------------------------------------------------------------

  /** The four geometry arrays: 3 position floats, 4 colour floats and 2 UV floats
      per vertex, and the element indices. */
  datatype Buffers = Buffers(vertices: seq<real>, colors: seq<real>, uvs: seq<real>, elements: seq<nat>)

  const EmptyBuffers := Buffers([], [], [], [])

  /** The relative vertex indices of a quad's two triangles, (0, 1, 2) and (2, 3, 0). */
  const QuadPattern: seq<nat> := [0, 1, 2, 2, 3, 0]

  /** The positions of a quad's four vertices, (0,0,0) (w,0,0) (w,h,0) (0,h,0):
      local, unpivoted and unrotated. */
  function QuadVertices(size: Vec2): seq<real> {
    [0.0, 0.0, 0.0,  size.x, 0.0, 0.0,  size.x, size.y, 0.0,  0.0, size.y, 0.0]
  }

  /** One colour, repeated on all four vertices. */
  function QuadColors(c: Color): seq<real> {
    [c.r, c.g, c.b, c.a,  c.r, c.g, c.b, c.a,  c.r, c.g, c.b, c.a,  c.r, c.g, c.b, c.a]
  }

  /** The (u, v) pair of each of the four vertices. */
  function QuadUvs(uv: Uvs): seq<real>
    requires |uv.us| == 4 && |uv.vs| == 4
  {
    [uv.us[0], uv.vs[0],  uv.us[1], uv.vs[1],  uv.us[2], uv.vs[2],  uv.us[3], uv.vs[3]]
  }

  /** The two triangles over the four vertices that follow `base`. */
  function QuadIndices(base: nat): seq<nat> {
    [base + 0, base + 1, base + 2,  base + 2, base + 3, base + 0]
  }

  /** The geometry one sprite command appends when `base` vertices are already in
      the arrays. */
  function SpriteQuad(cmd: DrawCommand, base: nat): Buffers {
    Buffers(QuadVertices(cmd.cmd.size), QuadColors(cmd.color),
            QuadUvs(SpriteUvs(cmd.texture, cmd.cmd.uvs, cmd.cmd.textureFlip)), QuadIndices(base))
  }

  function Append(b: Buffers, q: Buffers): Buffers {
    Buffers(b.vertices + q.vertices, b.colors + q.colors, b.uvs + q.uvs, b.elements + q.elements)
  }

  /** Appending to empty arrays gives the appended geometry. */
  lemma EmptyAppend(q: Buffers)
    ensures Append(EmptyBuffers, q) == q
  {
    assert [] + q.vertices == q.vertices && [] + q.colors == q.colors;
    assert [] + q.uvs == q.uvs && [] + q.elements == q.elements;
  }

  /** Vertex `k` (0 to 3) of a sprite of size (w, h), in its local unpivoted frame. */
  function Corner(size: Vec2, k: nat): Vec3
    requires k < 4
  {
    if k == 0 then Vec3(0.0, 0.0, 0.0)
    else if k == 1 then Vec3(size.x, 0.0, 0.0)
    else if k == 2 then Vec3(size.x, size.y, 0.0)
    else Vec3(0.0, size.y, 0.0)
  }

  /** Per vertex, the quad carries the corner's position, the command's colour and
      that vertex's (u, v); its six indices are the two triangles over the four new
      vertices. */
  lemma SpriteQuadLayout(cmd: DrawCommand, base: nat, k: nat)
    requires k < 4
    ensures var q := SpriteQuad(cmd, base);
      var p := Corner(cmd.cmd.size, k);
      var uv := SpriteUvs(cmd.texture, cmd.cmd.uvs, cmd.cmd.textureFlip);
      && |q.vertices| == 12 && |q.colors| == 16 && |q.uvs| == 8 && |q.elements| == 6
      && q.vertices[3 * k] == p.x && q.vertices[3 * k + 1] == p.y && q.vertices[3 * k + 2] == p.z
      && q.colors[4 * k] == cmd.color.r && q.colors[4 * k + 1] == cmd.color.g
      && q.colors[4 * k + 2] == cmd.color.b && q.colors[4 * k + 3] == cmd.color.a
      && q.uvs[2 * k] == uv.us[k] && q.uvs[2 * k + 1] == uv.vs[k]
      && (forall j :: 0 <= j < 6 ==> q.elements[j] == base + QuadPattern[j])
  {
  }

  /** The two triangles, (0, 1, 2) and (2, 3, 0), use each of the four vertices and
      no other, and share the diagonal 0-2. */
  lemma QuadPatternCoversQuad()
    ensures (set j | 0 <= j < |QuadPattern| :: QuadPattern[j]) == {0, 1, 2, 3}
    ensures QuadPattern[..3] == [0, 1, 2] && QuadPattern[3..] == [2, 3, 0]
  {
    assert QuadPattern[0] == 0 && QuadPattern[1] == 1 && QuadPattern[2] == 2 && QuadPattern[4] == 3;
  }

  /** The arrays hold whole quads in lock-step (3:4:2:6 floats or indices per quad
      and vertex), and index j belongs to quad j / 6 and names one of that quad's
      own four vertices in the pattern of QuadPattern. */
  ghost predicate Lockstep(b: Buffers) {
    var n := |b.vertices| / 12;
    && |b.vertices| == 12 * n
    && |b.colors| == 16 * n
    && |b.uvs| == 8 * n
    && |b.elements| == 6 * n
    && forall j :: 0 <= j < |b.elements| ==> b.elements[j] == 4 * (j / 6) + QuadPattern[j % 6]
  }

  lemma EmptyIsLockstep()
    ensures Lockstep(EmptyBuffers)
  {
  }

  /** Pushing a sprite with the base the renderer computes (vertex floats / 3)
      keeps the arrays in lock-step and adds exactly one quad. */
  lemma {:induction false} AppendSpriteKeepsLockstep(b: Buffers, cmd: DrawCommand)
    requires Lockstep(b)
    ensures Lockstep(Append(b, SpriteQuad(cmd, |b.vertices| / 3)))
    ensures |Append(b, SpriteQuad(cmd, |b.vertices| / 3)).vertices| / 12 == |b.vertices| / 12 + 1
  {
    var n := |b.vertices| / 12;
    var base := |b.vertices| / 3;
    assert base == 4 * n;
    var q := SpriteQuad(cmd, base);
    var b' := Append(b, q);
    assert |b'.vertices| == 12 * (n + 1);
    assert |b'.vertices| / 12 == n + 1;
    forall j | 0 <= j < |b'.elements|
      ensures b'.elements[j] == 4 * (j / 6) + QuadPattern[j % 6]
    {
      if j < |b.elements| {
        assert b'.elements[j] == b.elements[j];
      } else {
        var k := j - 6 * n;
        assert 0 <= k < 6;
        assert j == 6 * n + k;
        assert j / 6 == n && j % 6 == k;
        assert b'.elements[j] == q.elements[k];
      }
    }
  }

  /** In lock-stepped arrays every index names an existing vertex. */
  lemma {:induction false} LockstepIndicesInRange(b: Buffers)
    requires Lockstep(b)
    ensures forall j :: 0 <= j < |b.elements| ==> b.elements[j] < |b.vertices| / 3
  {
    var n := |b.vertices| / 12;
    assert |b.vertices| / 3 == 4 * n;
    forall j | 0 <= j < |b.elements|
      ensures b.elements[j] < |b.vertices| / 3
    {
      assert j / 6 < n;
      assert QuadPattern[j % 6] <= 3;
    }
  }

  // ---------------------------------------------------------------------------
  // Draw calls
  // ---------------------------------------------------------------------------

  /** Depth of a layer: the integer layer in tenths, offset by 0.1 off the near plane. */
  function Depth(layer: I32): real {
    layer as real / 10.0 + 0.1
  }

  /** The depth strictly increases with the layer. */
  lemma DepthIncreasesWithLayer(l1: I32, l2: I32)
    ensures l1 < l2 <==> Depth(l1) < Depth(l2)
    ensures Depth(0) == 0.1
  {
  }

  /** The descriptor of one quad's draw: an index range, the model transform's
      parts, and the texture to sample. */
  datatype DrawCall = DrawCall(
    start: nat,
    count: nat,
    translation: Vec3,
    pivot: Vec2,
    rot: real,
    textureObject: TextureObject)

  /** The draw call a sprite command records. */
  function SpriteDrawCall(cmd: DrawCommand, start: nat): DrawCall {
    DrawCall(start, 6, Vec3(cmd.pos.x, cmd.pos.y, Depth(cmd.layer)), cmd.cmd.pivot, cmd.rot, cmd.texture.obj)
  }

  /** A sprite's draw covers its six indices, at its position and layer depth, with
      its own pivot, rotation and texture; a higher layer gives a larger z. */
  lemma SpriteDrawCallFields(cmd: DrawCommand, other: DrawCommand, start: nat)
    ensures var c := SpriteDrawCall(cmd, start);
      && c.count == |SpriteQuad(cmd, 0).elements|
      && c.start == start
      && c.translation.x == cmd.pos.x && c.translation.y == cmd.pos.y
      && c.pivot == cmd.cmd.pivot && c.rot == cmd.rot && c.textureObject == cmd.texture.obj
    ensures cmd.layer < other.layer ==>
      SpriteDrawCall(cmd, start).translation.z < SpriteDrawCall(other, start).translation.z
  {
  }
}
