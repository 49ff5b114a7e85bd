/** Plain data shared by the renderer and the entity container: the draw command
    and its payload, textures, colours and world transforms. Floats are `real`. */
module Types {

  datatype Option<T> = None | Some(value: T)

  /** An opaque GL shader-program handle; 0 means "keep the current program". */
  type Program = nat

  /** An opaque GL texture-object handle. */
  type TextureObject = nat

  /** A signed 32-bit integer, the type of a draw layer. */
  newtype I32 = x: int | -0x8000_0000 <= x < 0x8000_0000

  datatype Vec2 = Vec2(x: real, y: real)

  /** An integer point in texture pixel space. */
  datatype Vec2i = Vec2i(x: int, y: int)

  datatype Vec3 = Vec3(x: real, y: real, z: real)

  datatype Color = Color(r: real, g: real, b: real, a: real)

  const White := Color(1.0, 1.0, 1.0, 1.0)

  /** A loaded texture: its GL object and its size in pixels. */
  datatype Texture = Texture(obj: TextureObject, w: int, h: int)

  /** The flip flags of a sprite: the bit set {X, Y}. */
  datatype TextureFlip = TextureFlip(x: bool, y: bool)

  const NoFlip := TextureFlip(false, false)

  /** The payload of a draw command; sprites are the only kind today. */
  datatype Command =
    DrawSprite(textureFlip: TextureFlip, uvs: (Vec2i, Vec2i), pivot: Vec2, size: Vec2)

  /** One queued draw request. */
  datatype DrawCommand = DrawCommand(
    program: Program,
    texture: Texture,
    color: Color,
    pos: Vec2,
    rot: real,
    layer: I32,
    cmd: Command)

  /** Position, rotation (degrees) and layer of an entity in the world. */
  datatype Transform = Transform(pos: Vec2, rot: real, layer: I32)

  function FromPos(x: real, y: real): Transform {
    Transform(Vec2(x, y), 0.0, 0)
  }

  /** What an entity draws: a region of a texture, flipped, pivoted and sized. */
  datatype Sprite = Sprite(
    texture: Texture,
    textureFlip: TextureFlip,
    uvs: (Vec2i, Vec2i),
    pivot: Vec2,
    size: Vec2)

  /** The all-zero sprite that animated entities start with. */
  const DefaultSprite := Sprite(Texture(0, 0, 0), NoFlip, (Vec2i(0, 0), Vec2i(0, 0)), Vec2(0.0, 0.0), Vec2(0.0, 0.0))
}
