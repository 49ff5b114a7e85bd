/** The renderer: a queue of draw commands, flushed once per frame into GPU calls.
    Every GL call is appended to `gpuLog`; the tracked program and texture decide
    which calls are made. */
module Renderer {
  import opened Types
  import opened Assembly
  import opened Dispatch

  class Renderer {
    var currentProgram: Program
    var currentTextureObject: TextureObject

    var vertexBuffer: seq<real>
    var colorBuffer: seq<real>
    var uvBuffer: seq<real>
    var elementBuffer: seq<nat>

    var worldDrawCmds: seq<DrawCommand>

    /** The GL calls made so far, in order. */
    var gpuLog: seq<GpuEvent>

    function Geometry(): Buffers
      reads this
    {
      Buffers(vertexBuffer, colorBuffer, uvBuffer, elementBuffer)
    }

    ghost function State(): Tracker
      reads this
    {
      Tracker(currentProgram, currentTextureObject)
    }

    /** Between flushes the four geometry arrays are empty. */
    ghost predicate Valid()
      reads this
    {
      Geometry() == EmptyBuffers
    }

    /** All four arrays hold something: the only state in which they may be uploaded. */
    predicate HasGeometry()
      reads this
    {
      vertexBuffer != [] && colorBuffer != [] && uvBuffer != [] && elementBuffer != []
    }

    /** A renderer whose default program is already built; nothing is bound yet. */
    constructor (program: Program)
      ensures Valid()
      ensures State() == Tracker(program, 0)
      ensures worldDrawCmds == [] && gpuLog == []
    {
      currentProgram := program;
      currentTextureObject := 0;
      vertexBuffer, colorBuffer, uvBuffer, elementBuffer := [], [], [], [];
      worldDrawCmds := [];
      gpuLog := [];
    }

    /** Appends a command to the frame's queue. */
    method QueueDraw(cmd: DrawCommand)
      modifies this`worldDrawCmds
      ensures worldDrawCmds == old(worldDrawCmds) + [cmd]
    {
      worldDrawCmds := worldDrawCmds + [cmd];
    }

    /** With an empty queue nothing happens at all; otherwise the arrays are bound
        and the whole queue is flushed, in order, leaving it empty. */
    method RenderQueuedDraws()
      requires Valid()
      modifies this
      ensures Valid() && worldDrawCmds == []
      ensures old(worldDrawCmds) == [] ==> State() == old(State()) && gpuLog == old(gpuLog)
      ensures old(worldDrawCmds) != [] ==>
        var t := FlushTrace(old(State()), old(worldDrawCmds));
        State() == t.state && gpuLog == old(gpuLog) + [GpuEvent.BindArrays] + t.events
    {
      if |worldDrawCmds| > 0 {
        BindArrays();
        FlushDrawCmds();
      }
    }

    method BindArrays()
      modifies this`gpuLog
      ensures gpuLog == old(gpuLog) + [GpuEvent.BindArrays]
    {
      gpuLog := gpuLog + [GpuEvent.BindArrays];
    }

    /** Re-issues the current program, takes the whole queue and, command by command
        in submission order, switches program when needed, assembles the quad and
        draws it at once. */
    method FlushDrawCmds()
      requires Valid()
      modifies this
      ensures Valid() && worldDrawCmds == []
      ensures var t := FlushTrace(old(State()), old(worldDrawCmds));
        State() == t.state && gpuLog == old(gpuLog) + t.events
    {
      ChangeShaderProgram(currentProgram);

      var drawCmds := worldDrawCmds;
      worldDrawCmds := [];

      FlushLoop(drawCmds);
      ConcatAssoc(old(gpuLog), [UseProgram(old(currentProgram))], Flush(old(State()), old(worldDrawCmds)).events);
    }

    /** The flush loop proper: one iteration per command, in order. */
    method FlushLoop(drawCmds: seq<DrawCommand>)
      requires Valid()
      modifies this
      ensures Valid() && worldDrawCmds == old(worldDrawCmds)
      ensures var t := Flush(old(State()), drawCmds);
        State() == t.state && gpuLog == old(gpuLog) + t.events
    {
      ghost var s0 := State();
      ghost var log0 := gpuLog;
      for i := 0 to |drawCmds|
        invariant Valid() && worldDrawCmds == old(worldDrawCmds)
        invariant State() == Flush(s0, drawCmds[..i]).state
        invariant gpuLog == log0 + Flush(s0, drawCmds[..i]).events
      {
        ghost var before := Flush(s0, drawCmds[..i]);
        FlushOne(drawCmds[i]);
        FlushSnoc(s0, drawCmds[..i], drawCmds[i]);
        PrefixGrows(drawCmds, i);
        ConcatAssoc(log0, before.events, CommandStep(before.state, drawCmds[i]).events);
      }
      assert drawCmds[..|drawCmds|] == drawCmds;
    }

    /** One iteration of the flush loop: switch program when the command names one
        that is not current, assemble the quad into the (empty) arrays and render
        its single draw call at once. */
    method FlushOne(drawCmd: DrawCommand)
      requires Valid()
      modifies this
      ensures Valid() && worldDrawCmds == old(worldDrawCmds)
      ensures var step := CommandStep(old(State()), drawCmd);
        State() == step.state && gpuLog == old(gpuLog) + step.events
    {
      var drawCalls: seq<DrawCall> := [];
      var start: nat := 0;
      ghost var before := State();
      ghost var quad := SpriteQuad(drawCmd, 0);
      ghost var d := DispatchCalls(before.texture, [SpriteDrawCall(drawCmd, 0)]);

      if drawCmd.program != 0 && drawCmd.program != currentProgram {
        ChangeShaderProgram(drawCmd.program);
      }
      ghost var logSwitched := gpuLog;
      assert logSwitched == old(gpuLog) + ProgramSwitch(before, drawCmd);

      assert Geometry() == EmptyBuffers && |vertexBuffer| / 3 == 0;
      ghost var g0 := Geometry();
      var call := AssembleSprite(drawCmd, start);
      assert Geometry() == Append(g0, quad);
      EmptyAppend(quad);
      drawCalls := drawCalls + [call];
      EmptyConcat([call]);
      drawCalls := RenderDrawCalls(drawCalls);
      start := 0;

      ConcatAssoc(old(gpuLog), ProgramSwitch(before, drawCmd), [UploadBuffers(quad)]);
      ConcatAssoc(old(gpuLog), ProgramSwitch(before, drawCmd) + [UploadBuffers(quad)], d.events);
      CommandStepDispatches(before, drawCmd);
    }

    /** Lines up one sprite's quad behind what the arrays hold: its UVs normalised
        and flipped, four positions, four copies of the colour, four UV pairs, and
        six indices from the current vertex count; returns its draw call. */
    method AssembleSprite(drawCmd: DrawCommand, start: nat) returns (call: DrawCall)
      modifies this`vertexBuffer, this`colorBuffer, this`uvBuffer, this`elementBuffer
      ensures Geometry() == Append(old(Geometry()), SpriteQuad(drawCmd, |old(vertexBuffer)| / 3))
      ensures Lockstep(old(Geometry())) ==> Lockstep(Geometry())
      ensures call == SpriteDrawCall(drawCmd, start)
    {
      var w: real, h: real, textureObject: TextureObject, pivot: Vec2;
      var us: seq<real>, vs: seq<real>;

      match drawCmd.cmd {
        case DrawSprite(textureFlip, uvs, p, size) =>
          w := size.x;
          h := size.y;
          pivot := p;
          textureObject := drawCmd.texture.obj;

          us, vs := SpriteTexCoords(drawCmd.texture, uvs, textureFlip);
      }

      // Two triangles over the next four vertices.
      var elem := |vertexBuffer| / 3;
      elementBuffer := elementBuffer + [elem + 0, elem + 1, elem + 2,  elem + 2, elem + 3, elem + 0];

      // The corners of a w-by-h quad, unpivoted and unrotated.
      vertexBuffer := vertexBuffer + [0.0, 0.0, 0.0,  w, 0.0, 0.0,  w, h, 0.0,  0.0, h, 0.0];

      var c := drawCmd.color;
      colorBuffer := colorBuffer + [c.r, c.g, c.b, c.a,  c.r, c.g, c.b, c.a,  c.r, c.g, c.b, c.a,  c.r, c.g, c.b, c.a];

      uvBuffer := uvBuffer + [us[0], vs[0],  us[1], vs[1],  us[2], vs[2],  us[3], vs[3]];

      call := DrawCall(start, 6, Vec3(drawCmd.pos.x, drawCmd.pos.y, (drawCmd.layer as real) / 10.0 + 0.1),
                       pivot, drawCmd.rot, textureObject);

      if Lockstep(old(Geometry())) {
        AppendSpriteKeepsLockstep(old(Geometry()), drawCmd);
      }
    }

    /** Normalises the pixel rectangle's corners by the texture size (1 for a zero
        size) into four U and four V values, then applies the flips as swaps. */
    static method SpriteTexCoords(texture: Texture, uvs: (Vec2i, Vec2i), textureFlip: TextureFlip)
      returns (us: seq<real>, vs: seq<real>)
      ensures Uvs(us, vs) == SpriteUvs(texture, uvs, textureFlip)
    {
      var uScale := if texture.w != 0 then texture.w as real else 1.0;
      var vScale := if texture.h != 0 then texture.h as real else 1.0;

      us := [uvs.0.x as real / uScale, uvs.1.x as real / uScale,
             uvs.1.x as real / uScale, uvs.0.x as real / uScale];
      vs := [uvs.0.y as real / vScale, uvs.0.y as real / vScale,
             uvs.1.y as real / vScale, uvs.1.y as real / vScale];

      if textureFlip.x {
        us := us[0 := us[1]][1 := us[0]];
        us := us[2 := us[3]][3 := us[2]];
      }
      if textureFlip.y {
        vs := vs[0 := vs[2]][2 := vs[0]];
        vs := vs[1 := vs[3]][3 := vs[1]];
      }
    }

    /** Uploads the arrays (which must not be empty), then for each call binds its
        texture when it is not the bound one and draws it; finally the arrays and
        the call list are emptied. */
    method RenderDrawCalls(drawCalls: seq<DrawCall>) returns (cleared: seq<DrawCall>)
      requires HasGeometry()
      modifies this`currentTextureObject, this`gpuLog
      modifies this`vertexBuffer, this`colorBuffer, this`uvBuffer, this`elementBuffer
      ensures Valid() && cleared == []
      ensures var d := DispatchCalls(old(currentTextureObject), drawCalls);
        currentTextureObject == d.texture && gpuLog == old(gpuLog) + [UploadBuffers(old(Geometry()))] + d.events
    {
      CreateBufferData();

      ghost var t0 := currentTextureObject;
      ghost var log1 := gpuLog;
      for i := 0 to |drawCalls|
        invariant currentTextureObject == DispatchCalls(t0, drawCalls[..i]).texture
        invariant gpuLog == log1 + DispatchCalls(t0, drawCalls[..i]).events
        invariant Geometry() == old(Geometry())
      {
        var call := drawCalls[i];
        ghost var d := DispatchCalls(t0, drawCalls[..i]);
        ghost var bind := TextureSwitch(d.texture, call.textureObject);
        ghost var mt := SetModelTransform(call.translation, call.pivot, call.rot);
        if call.textureObject != currentTextureObject {
          ChangeTexture(call.textureObject);
        }
        gpuLog := gpuLog + [SetModelTransform(call.translation, call.pivot, call.rot)];
        gpuLog := gpuLog + [DrawElements(call.count, call.start)];

        ConcatAssoc(log1, d.events, bind);
        ConcatAssoc(log1, d.events + bind, [mt]);
        ConcatAssoc(log1, d.events + bind + [mt], [DrawElements(call.count, call.start)]);
        PrefixGrows(drawCalls, i);
        InitLastSnoc(drawCalls[..i], call);
      }
      assert drawCalls[..|drawCalls|] == drawCalls;

      vertexBuffer := [];
      colorBuffer := [];
      uvBuffer := [];
      elementBuffer := [];
      cleared := [];
    }

    /** Refuses empty arrays; otherwise uploads all four as they are. */
    method CreateBufferData()
      requires HasGeometry()
      modifies this`gpuLog
      ensures gpuLog == old(gpuLog) + [UploadBuffers(Geometry())]
    {
      gpuLog := gpuLog + [UploadBuffers(Geometry())];
    }

    /** Makes `newProgram` current and uses it, unconditionally. */
    method ChangeShaderProgram(newProgram: Program)
      modifies this`currentProgram, this`gpuLog
      ensures currentProgram == newProgram
      ensures gpuLog == old(gpuLog) + [UseProgram(newProgram)]
    {
      currentProgram := newProgram;
      gpuLog := gpuLog + [UseProgram(currentProgram)];
    }

    /** Makes `newTextureObject` current and binds it, unconditionally. */
    method ChangeTexture(newTextureObject: TextureObject)
      modifies this`currentTextureObject, this`gpuLog
      ensures currentTextureObject == newTextureObject
      ensures gpuLog == old(gpuLog) + [BindTexture(newTextureObject)]
    {
      currentTextureObject := newTextureObject;
      gpuLog := gpuLog + [BindTexture(currentTextureObject)];
    }
  }
}
