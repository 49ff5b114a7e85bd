/** The GPU calls a flush makes, as a log of events, and the state tracker that
    decides when a program or a texture has to be bound again. */
module Dispatch {
  import opened Types
  import opened Assembly

  /** One GL call (or group of calls) of the renderer. */
  datatype GpuEvent =
    | BindArrays                                  // vertex array and attribute setup
    | UseProgram(program: Program)                // glUseProgram and the program's uniforms
    | UploadBuffers(data: Buffers)                // glBufferData of the four arrays
    | BindTexture(texture: TextureObject)         // glBindTexture
    | SetModelTransform(translation: Vec3, pivot: Vec2, rot: real)  // the model-matrix uniform
    | DrawElements(count: nat, start: nat)        // glDrawElements over an index range

  predicate IsUseProgram(e: GpuEvent) { e.UseProgram? }
  predicate IsBindTexture(e: GpuEvent) { e.BindTexture? }
  predicate IsUpload(e: GpuEvent) { e.UploadBuffers? }
  predicate IsModelTransform(e: GpuEvent) { e.SetModelTransform? }
  predicate IsDraw(e: GpuEvent) { e.DrawElements? }

  /** What is bound: the current program and texture object. */
  datatype Tracker = Tracker(program: Program, texture: TextureObject)

  /** The tracker after a run of calls, and the events the run logged. */
  datatype Trace = Trace(state: Tracker, events: seq<GpuEvent>)

  /** The texture bound after a run of draw calls, and the events logged. */
  datatype TextureTrace = TextureTrace(texture: TextureObject, events: seq<GpuEvent>)

  function Last<T>(s: seq<T>): T
    requires s != []
  {
    s[|s| - 1]
  }

  function Init<T>(s: seq<T>): seq<T>
    requires s != []
  {
    s[..|s| - 1]
  }

  lemma InitLastSnoc<T>(s: seq<T>, x: T)
    ensures Init(s + [x]) == s && Last(s + [x]) == x
  {
  }

  lemma ConcatAssoc<T>(a: seq<T>, b: seq<T>, c: seq<T>)
    ensures a + b + c == a + (b + c)
  {
  }

  lemma EmptyConcat<T>(s: seq<T>)
    ensures [] + s == s
  {
  }

  /** One more element of a prefix. */
  lemma PrefixGrows<T>(s: seq<T>, i: nat)
    requires i < |s|
    ensures s[..i + 1] == s[..i] + [s[i]]
  {
  }

  /** The bind one draw logs: BindTexture when its texture is not the bound one. */
  function TextureSwitch(bound: TextureObject, t: TextureObject): seq<GpuEvent> {
    if t != bound then [BindTexture(t)] else []
  }

  /** The draw loop of render_draw_calls: for each call in order, bind its texture
      if it is not the bound one, then set the model transform and draw. */
  function DispatchCalls(texture: TextureObject, calls: seq<DrawCall>): TextureTrace
    decreases |calls|
  {
    if calls == [] then TextureTrace(texture, [])
    else
      var before := DispatchCalls(texture, Init(calls));
      var c := Last(calls);
      TextureTrace(c.textureObject,
        before.events + TextureSwitch(before.texture, c.textureObject)
        + [SetModelTransform(c.translation, c.pivot, c.rot)] + [DrawElements(c.count, c.start)])
  }

  /** The program switch one command logs: UseProgram when its program is non-zero
      and differs from the current one, nothing otherwise. */
  function ProgramSwitch(s: Tracker, cmd: DrawCommand): seq<GpuEvent> {
    if cmd.program != 0 && cmd.program != s.program then [UseProgram(cmd.program)] else []
  }

  /** The upload one command causes: its own quad, at base vertex 0 since the
      arrays are empty before it. */
  function UploadOf(cmd: DrawCommand): GpuEvent {
    UploadBuffers(SpriteQuad(cmd, 0))
  }

  /** The model transform a command's draw sets: its position at its layer's
      depth, its pivot and its rotation. */
  function ModelTransformOf(cmd: DrawCommand): GpuEvent {
    SetModelTransform(Vec3(cmd.pos.x, cmd.pos.y, Depth(cmd.layer)), cmd.cmd.pivot, cmd.rot)
  }

  /** One iteration of the flush loop, event by event: the program switch when the
      command names another non-zero program, the upload of its quad, the texture
      bind when its texture is not the bound one, its model transform and the draw
      of six indices from index 0. Afterwards the sprite's texture is bound. */
  function CommandStep(s: Tracker, cmd: DrawCommand): Trace {
    Trace(Tracker(if cmd.program != 0 && cmd.program != s.program then cmd.program else s.program,
                  cmd.texture.obj),
      ProgramSwitch(s, cmd) + [UploadOf(cmd)] + TextureSwitch(s.texture, cmd.texture.obj)
      + [ModelTransformOf(cmd)] + [DrawElements(6, 0)])
  }

  /** Dispatching a single call: bind its texture if needed, transform, draw. */
  lemma DispatchOneCall(texture: TextureObject, c: DrawCall)
    ensures DispatchCalls(texture, [c])
         == TextureTrace(c.textureObject,
              TextureSwitch(texture, c.textureObject)
              + [SetModelTransform(c.translation, c.pivot, c.rot)] + [DrawElements(c.count, c.start)])
  {
    assert Init([c]) == [];
  }

  /** An iteration is what rendering its one draw call does: after the program
      switch and the upload, the single-call dispatch of the sprite's draw call,
      which leaves the sprite's texture bound. */
  lemma CommandStepDispatches(s: Tracker, cmd: DrawCommand)
    ensures var d := DispatchCalls(s.texture, [SpriteDrawCall(cmd, 0)]);
      && CommandStep(s, cmd).state.texture == d.texture
      && CommandStep(s, cmd).events == ProgramSwitch(s, cmd) + [UploadOf(cmd)] + d.events
  {
    DispatchOneCall(s.texture, SpriteDrawCall(cmd, 0));
  }

  /** The flush loop over a queue, from tracker state `s`. */
  function Flush(s: Tracker, cmds: seq<DrawCommand>): Trace
    decreases |cmds|
  {
    if cmds == [] then Trace(s, [])
    else
      var before := Flush(s, Init(cmds));
      var step := CommandStep(before.state, Last(cmds));
      Trace(step.state, before.events + step.events)
  }

  /** The flush of a queue with one more command is one more iteration. */
  lemma FlushSnoc(s: Tracker, cmds: seq<DrawCommand>, cmd: DrawCommand)
    ensures var before := Flush(s, cmds);
      var step := CommandStep(before.state, cmd);
      Flush(s, cmds + [cmd]) == Trace(step.state, before.events + step.events)
  {
    InitLastSnoc(cmds, cmd);
  }

  /** flush_draw_cmds as a whole: re-issue the current program, then the loop. */
  function FlushTrace(s: Tracker, cmds: seq<DrawCommand>): Trace {
    var t := Flush(s, cmds);
    Trace(t.state, [UseProgram(s.program)] + t.events)
  }

  // ---------------------------------------------------------------------------
  // Counting and filtering the log
  // ---------------------------------------------------------------------------

  function CountWhere(events: seq<GpuEvent>, p: GpuEvent -> bool): nat
    decreases |events|
  {
    if events == [] then 0
    else CountWhere(Init(events), p) + (if p(Last(events)) then 1 else 0)
  }

  function Filter(events: seq<GpuEvent>, p: GpuEvent -> bool): seq<GpuEvent>
    decreases |events|
  {
    if events == [] then []
    else Filter(Init(events), p) + (if p(Last(events)) then [Last(events)] else [])
  }

  lemma {:induction false} CountWhereAppend(a: seq<GpuEvent>, b: seq<GpuEvent>, p: GpuEvent -> bool)
    ensures CountWhere(a + b, p) == CountWhere(a, p) + CountWhere(b, p)
    decreases |b|
  {
    if b == [] {
      assert a + b == a;
    } else {
      assert Init(a + b) == a + Init(b);
      assert Last(a + b) == Last(b);
      CountWhereAppend(a, Init(b), p);
    }
  }

  lemma {:induction false} FilterAppend(a: seq<GpuEvent>, b: seq<GpuEvent>, p: GpuEvent -> bool)
    ensures Filter(a + b, p) == Filter(a, p) + Filter(b, p)
    decreases |b|
  {
    if b == [] {
      assert a + b == a;
    } else {
      assert Init(a + b) == a + Init(b);
      assert Last(a + b) == Last(b);
      FilterAppend(a, Init(b), p);
    }
  }

  /** The count of events of a kind is the length of their filtered log. */
  lemma {:induction false} CountIsFilterLength(events: seq<GpuEvent>, p: GpuEvent -> bool)
    ensures CountWhere(events, p) == |Filter(events, p)|
    ensures forall e :: e in Filter(events, p) ==> e in events && p(e)
    decreases |events|
  {
    if events != [] {
      CountIsFilterLength(Init(events), p);
    }
  }

  // ---------------------------------------------------------------------------
  // Properties of the flush
  // ---------------------------------------------------------------------------

  lemma CountAndFilterSnoc(events: seq<GpuEvent>, e: GpuEvent, p: GpuEvent -> bool)
    ensures CountWhere(events + [e], p) == CountWhere(events, p) + if p(e) then 1 else 0
    ensures Filter(events + [e], p) == Filter(events, p) + if p(e) then [e] else []
  {
    assert Init(events + [e]) == events;
  }

  /** A log with at most one event appended counts and filters piecewise. */
  lemma CountAndFilterShort(events: seq<GpuEvent>, tail: seq<GpuEvent>, p: GpuEvent -> bool)
    requires |tail| <= 1
    ensures CountWhere(events + tail, p) == CountWhere(events, p) + if tail != [] && p(tail[0]) then 1 else 0
    ensures Filter(events + tail, p) == Filter(events, p) + if tail != [] && p(tail[0]) then tail else []
  {
    if tail == [] {
      assert events + tail == events;
    } else {
      assert tail == [tail[0]];
      CountAndFilterSnoc(events, tail[0], p);
    }
  }

  /** Counting or filtering a log of the shape of one iteration -- an optional
      event, one event, an optional event and two events -- piece by piece. */
  lemma StepShapeCounts(ps: seq<GpuEvent>, up: GpuEvent, ts: seq<GpuEvent>, mt: GpuEvent, dr: GpuEvent,
                        p: GpuEvent -> bool)
    requires |ps| <= 1 && |ts| <= 1
    ensures CountWhere(ps + [up] + ts + [mt] + [dr], p)
         == (if ps != [] && p(ps[0]) then 1 else 0) + (if p(up) then 1 else 0)
          + (if ts != [] && p(ts[0]) then 1 else 0) + (if p(mt) then 1 else 0) + (if p(dr) then 1 else 0)
    ensures Filter(ps + [up] + ts + [mt] + [dr], p)
         == (if ps != [] && p(ps[0]) then ps else []) + (if p(up) then [up] else [])
          + (if ts != [] && p(ts[0]) then ts else []) + (if p(mt) then [mt] else []) + (if p(dr) then [dr] else [])
  {
    CountAndFilterShort([], ps, p);
    assert [] + ps == ps;
    CountAndFilterSnoc(ps, up, p);
    CountAndFilterShort(ps + [up], ts, p);
    CountAndFilterSnoc(ps + [up] + ts, mt, p);
    CountAndFilterSnoc(ps + [up] + ts + [mt], dr, p);
  }

  /** Counting or filtering one iteration's log, event kind by event kind. */
  lemma CommandStepCounts(s: Tracker, cmd: DrawCommand, p: GpuEvent -> bool)
    ensures var up := UploadOf(cmd);
      var mt := ModelTransformOf(cmd);
      var dr := DrawElements(6, 0);
      var ps := ProgramSwitch(s, cmd);
      var ts := TextureSwitch(s.texture, cmd.texture.obj);
      && CountWhere(CommandStep(s, cmd).events, p)
         == (if ps != [] && p(ps[0]) then 1 else 0) + (if p(up) then 1 else 0)
          + (if ts != [] && p(ts[0]) then 1 else 0) + (if p(mt) then 1 else 0) + (if p(dr) then 1 else 0)
      && Filter(CommandStep(s, cmd).events, p)
         == (if ps != [] && p(ps[0]) then ps else []) + (if p(up) then [up] else [])
          + (if ts != [] && p(ts[0]) then ts else []) + (if p(mt) then [mt] else []) + (if p(dr) then [dr] else [])
  {
    StepShapeCounts(ProgramSwitch(s, cmd), UploadOf(cmd), TextureSwitch(s.texture, cmd.texture.obj),
                    ModelTransformOf(cmd), DrawElements(6, 0), p);
  }

  /** One iteration logs exactly one upload, one model transform and one draw. */
  lemma StepFilters(s: Tracker, cmd: DrawCommand)
    ensures Filter(CommandStep(s, cmd).events, IsUpload) == [UploadOf(cmd)]
    ensures Filter(CommandStep(s, cmd).events, IsModelTransform) == [ModelTransformOf(cmd)]
    ensures Filter(CommandStep(s, cmd).events, IsDraw) == [DrawElements(6, 0)]
  {
    CommandStepCounts(s, cmd, IsUpload);
    CommandStepCounts(s, cmd, IsModelTransform);
    CommandStepCounts(s, cmd, IsDraw);
  }

  /** One event per command, `f` of it, in submission order. */
  function Each(cmds: seq<DrawCommand>, f: DrawCommand -> GpuEvent): (r: seq<GpuEvent>)
    ensures |r| == |cmds|
    decreases |cmds|
  {
    if cmds == [] then [] else Each(Init(cmds), f) + [f(Last(cmds))]
  }

  lemma {:induction false} EachAt(cmds: seq<DrawCommand>, f: DrawCommand -> GpuEvent, k: nat)
    requires k < |cmds|
    ensures Each(cmds, f)[k] == f(cmds[k])
    decreases |cmds|
  {
    if k < |cmds| - 1 {
      EachAt(Init(cmds), f, k);
    }
  }

  /** When every iteration logs exactly one event of a kind, `f` of its command,
      the flush logs those events in submission order and no others of that kind. */
  lemma {:induction false} FlushFilterFollowsCommands(s: Tracker, cmds: seq<DrawCommand>,
                                                      p: GpuEvent -> bool, f: DrawCommand -> GpuEvent)
    requires forall t, c :: Filter(CommandStep(t, c).events, p) == [f(c)]
    ensures Filter(Flush(s, cmds).events, p) == Each(cmds, f)
    decreases |cmds|
  {
    if cmds != [] {
      var before := Flush(s, Init(cmds));
      var step := CommandStep(before.state, Last(cmds));
      FlushFilterFollowsCommands(s, Init(cmds), p, f);
      FilterAppend(before.events, step.events, p);
    }
  }

  /** Every command yields exactly one upload, of its own quad at base vertex 0,
      in submission order. */
  lemma FlushUploadsInOrder(s: Tracker, cmds: seq<DrawCommand>)
    ensures var ups := Filter(Flush(s, cmds).events, IsUpload);
      |ups| == |cmds| && forall k :: 0 <= k < |cmds| ==> ups[k] == UploadOf(cmds[k])
  {
    forall t, c ensures Filter(CommandStep(t, c).events, IsUpload) == [UploadOf(c)] {
      StepFilters(t, c);
    }
    FlushFilterFollowsCommands(s, cmds, IsUpload, UploadOf);
    forall k | 0 <= k < |cmds| ensures Each(cmds, UploadOf)[k] == UploadOf(cmds[k]) {
      EachAt(cmds, UploadOf, k);
    }
  }

  /** Every command yields exactly one model transform, made of its own position,
      layer depth, pivot and rotation, in submission order. */
  lemma FlushTransformsInOrder(s: Tracker, cmds: seq<DrawCommand>)
    ensures var mts := Filter(Flush(s, cmds).events, IsModelTransform);
      |mts| == |cmds| && forall k :: 0 <= k < |cmds| ==> mts[k] == ModelTransformOf(cmds[k])
  {
    forall t, c ensures Filter(CommandStep(t, c).events, IsModelTransform) == [ModelTransformOf(c)] {
      StepFilters(t, c);
    }
    FlushFilterFollowsCommands(s, cmds, IsModelTransform, ModelTransformOf);
    forall k | 0 <= k < |cmds| ensures Each(cmds, ModelTransformOf)[k] == ModelTransformOf(cmds[k]) {
      EachAt(cmds, ModelTransformOf, k);
    }
  }

  /** Every command yields exactly one draw, of six indices from index 0. */
  lemma FlushDrawsOncePerCommand(s: Tracker, cmds: seq<DrawCommand>)
    ensures var draws := Filter(Flush(s, cmds).events, IsDraw);
      |draws| == |cmds| && forall k :: 0 <= k < |draws| ==> draws[k] == DrawElements(6, 0)
  {
    var f := (c: DrawCommand) => DrawElements(6, 0);
    forall t, c ensures Filter(CommandStep(t, c).events, IsDraw) == [f(c)] {
      StepFilters(t, c);
    }
    FlushFilterFollowsCommands(s, cmds, IsDraw, f);
    forall k | 0 <= k < |cmds| ensures Each(cmds, f)[k] == DrawElements(6, 0) {
      EachAt(cmds, f, k);
    }
  }

  /** A flush ends with the last command's texture bound. */
  lemma FlushEndsOnLastTexture(s: Tracker, cmds: seq<DrawCommand>)
    ensures cmds != [] ==> Flush(s, cmds).state.texture == Last(cmds).texture.obj
    ensures cmds == [] ==> Flush(s, cmds) == Trace(s, [])
  {
  }

  /** Commands whose program is 0, or is already the current one, never cause a
      program switch: the loop logs no UseProgram and the program stays. */
  lemma {:induction false} InheritedProgramNeverSwitches(s: Tracker, cmds: seq<DrawCommand>)
    requires forall k :: 0 <= k < |cmds| ==> cmds[k].program == 0 || cmds[k].program == s.program
    ensures CountWhere(Flush(s, cmds).events, IsUseProgram) == 0
    ensures Flush(s, cmds).state.program == s.program
    decreases |cmds|
  {
    if cmds != [] {
      var before := Flush(s, Init(cmds));
      InheritedProgramNeverSwitches(s, Init(cmds));
      CountWhereAppend(before.events, CommandStep(before.state, Last(cmds)).events, IsUseProgram);
      CommandStepCounts(before.state, Last(cmds), IsUseProgram);
    }
  }

  /** A run of commands that all sample one texture binds it at most once: not at
      all if it is already bound, once otherwise. */
  lemma {:induction false} UniformTextureBindsAtMostOnce(s: Tracker, cmds: seq<DrawCommand>, t: TextureObject)
    requires forall k :: 0 <= k < |cmds| ==> cmds[k].texture.obj == t
    ensures CountWhere(Flush(s, cmds).events, IsBindTexture) == if cmds == [] || s.texture == t then 0 else 1
    ensures cmds != [] ==> Flush(s, cmds).state.texture == t
    decreases |cmds|
  {
    if cmds != [] {
      var before := Flush(s, Init(cmds));
      UniformTextureBindsAtMostOnce(s, Init(cmds), t);
      FlushEndsOnLastTexture(s, Init(cmds));
      CountWhereAppend(before.events, CommandStep(before.state, Last(cmds)).events, IsBindTexture);
      CommandStepCounts(before.state, Last(cmds), IsBindTexture);
    }
  }

  /** When every command samples a different texture from the one before it (and
      the first differs from the bound one), every command binds its texture. */
  lemma {:induction false} AlternatingTexturesBindEveryTime(s: Tracker, cmds: seq<DrawCommand>)
    requires cmds != [] ==> cmds[0].texture.obj != s.texture
    requires forall k :: 0 < k < |cmds| ==> cmds[k].texture.obj != cmds[k - 1].texture.obj
    ensures CountWhere(Flush(s, cmds).events, IsBindTexture) == |cmds|
    decreases |cmds|
  {
    if cmds != [] {
      var before := Flush(s, Init(cmds));
      AlternatingTexturesBindEveryTime(s, Init(cmds));
      FlushEndsOnLastTexture(s, Init(cmds));
      CountWhereAppend(before.events, CommandStep(before.state, Last(cmds)).events, IsBindTexture);
      CommandStepCounts(before.state, Last(cmds), IsBindTexture);
    }
  }

  /** A batch sharing one program (or program 0) and one texture not yet bound costs
      exactly one program use (the one every flush starts with) and one texture
      bind for the whole flush. */
  lemma BatchCostsOneUseAndOneBind(s: Tracker, cmds: seq<DrawCommand>, t: TextureObject)
    requires cmds != [] && s.texture != t
    requires forall k :: 0 <= k < |cmds| ==> cmds[k].program == 0 || cmds[k].program == s.program
    requires forall k :: 0 <= k < |cmds| ==> cmds[k].texture.obj == t
    ensures CountWhere(FlushTrace(s, cmds).events, IsUseProgram) == 1
    ensures CountWhere(FlushTrace(s, cmds).events, IsBindTexture) == 1
    ensures FlushTrace(s, cmds).state == Tracker(s.program, t)
  {
    var loop := Flush(s, cmds).events;
    InheritedProgramNeverSwitches(s, cmds);
    UniformTextureBindsAtMostOnce(s, cmds, t);
    CountWhereAppend([UseProgram(s.program)], loop, IsUseProgram);
    CountWhereAppend([UseProgram(s.program)], loop, IsBindTexture);
    assert CountWhere([UseProgram(s.program)], IsUseProgram) == 1 by {
      assert Init([UseProgram(s.program)]) == [];
    }
    assert CountWhere([UseProgram(s.program)], IsBindTexture) == 0 by {
      assert Init([UseProgram(s.program)]) == [];
    }
  }

  /** A single 32x32 sprite of a 64x64 texture, region (0,0)-(32,32), unflipped,
      white, at (50, 50) on layer 0: UVs (0,0) (0.5,0) (0.5,0.5) (0,0.5), one draw of
      six indices at translation (50, 50, 0.1), and this exact event log. */
  lemma SingleSpriteScenario(program: Program, obj: TextureObject)
    requires obj != 0
    ensures var cmd := DrawCommand(0, Texture(obj, 64, 64), White, Vec2(50.0, 50.0), 0.0, 0,
                                   DrawSprite(NoFlip, (Vec2i(0, 0), Vec2i(32, 32)), Vec2(16.0, 16.0), Vec2(32.0, 32.0)));
      && SpriteQuad(cmd, 0).uvs == [0.0, 0.0, 0.5, 0.0, 0.5, 0.5, 0.0, 0.5]
      && SpriteQuad(cmd, 0).vertices == [0.0, 0.0, 0.0, 32.0, 0.0, 0.0, 32.0, 32.0, 0.0, 0.0, 32.0, 0.0]
      && SpriteDrawCall(cmd, 0) == DrawCall(0, 6, Vec3(50.0, 50.0, 0.1), Vec2(16.0, 16.0), 0.0, obj)
      && FlushTrace(Tracker(program, 0), [cmd]).events
         == [UseProgram(program), UploadBuffers(SpriteQuad(cmd, 0)), BindTexture(obj),
             SetModelTransform(Vec3(50.0, 50.0, 0.1), Vec2(16.0, 16.0), 0.0), DrawElements(6, 0)]
  {
    var cmd := DrawCommand(0, Texture(obj, 64, 64), White, Vec2(50.0, 50.0), 0.0, 0,
                           DrawSprite(NoFlip, (Vec2i(0, 0), Vec2i(32, 32)), Vec2(16.0, 16.0), Vec2(32.0, 32.0)));
    assert Init([cmd]) == [] && Last([cmd]) == cmd;
    assert Flush(Tracker(program, 0), [cmd]).events == CommandStep(Tracker(program, 0), cmd).events;
    assert ProgramSwitch(Tracker(program, 0), cmd) == [];
    assert TextureSwitch(0, obj) == [BindTexture(obj)];
    assert Depth(0) == 0.1;
  }
}
