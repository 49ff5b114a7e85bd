# codename-dash-rs core, modelled in Dafny

This project models three parts of a small 2D sprite engine written in Rust:

- **The renderer's frame flush.** Game code queues draw commands (`world_draw_cmds`). Once per frame the renderer does the following:
  - it binds its vertex arrays and re-issues the current shader program;
  - it takes the whole queue and turns each sprite command into a quad, in submission order:
    - four vertices with position, colour and normalised (optionally flipped) texture coordinates;
    - six indices;
    - one draw call at the command's position, with its pivot, its rotation and a depth derived from its layer.
  - right after each command, it uploads the arrays and dispatches the draw calls. A program switch happens only when a command names a non-zero program that differs from the current one. A texture bind happens only when the texture differs from the bound one.
  - it clears the arrays.
- **The entity container.** This is a table of optional slots indexed by the ids an id generator hands out. The container can:
  - create entities: active and visible, optionally animated with the default sprite;
  - read a slot;
  - count entities;
  - destroy entities, which frees the id for reuse;
  - queue one white sprite per occupied, visible slot, in slot order.
- **The texture cache.** It maps the display string of a path to a texture. The cache loads each path at most once.

GL calls are not made. Each one is recorded as an event appended to a log (`gpuLog`, of type `GpuEvent`). The renderer's state is the pair (current program, bound texture), whose type is `Tracker`.

The flush is specified by pure functions in `dispatch.dfy`:
- `CommandStep` gives one loop iteration;
- `Flush` gives the loop;
- `FlushTrace` gives the whole flush.

Each mutating method of the `Renderer` class is proved to produce exactly the state and event log these functions give. The lemmas in `dispatch.dfy` and `assembly.dfy` state what those functions guarantee: the uploads, transforms and draws per command, the number of program switches and texture binds, the quad layout, and the flips.

Modules:
- `Types`: the draw command, transform, sprite and texture;
- `Assembly`: UVs, quad geometry, draw calls;
- `Dispatch`: the event log and the reference functions;
- `Renderer`;
- `Ids`: the id generator as the container needs it;
- `Entities`;
- `Assets`.

Field placement: in `src/app/renderer/draw_command.rs`, the texture is a field of `DrawCommand` and the pivot belongs to `DrawSprite`. The flush loop in `src/app/renderer/mod.rs` destructures the texture from `DrawSprite` and reads `draw_cmd.pivot`. The model follows `draw_command.rs`. The values used are the same.

## Model

| member | source | states |
|---|---|---|
| Renderer.Renderer.constructor | src/app/renderer/mod.rs:147-183 | A new renderer has empty arrays, an empty queue, its default program current, no texture bound and no GL calls logged. |
| Renderer.Renderer.QueueDraw | src/app/renderer/mod.rs:143 | Queueing appends the command at the end of `world_draw_cmds` and changes nothing else. |
| Renderer.Renderer.RenderQueuedDraws | src/app/renderer/mod.rs:201-206 | An empty queue changes nothing and issues no GL call. Otherwise the renderer binds the arrays and then logs exactly the events of the reference flush. The new state is the reference state, and the queue ends empty. |
| Renderer.Renderer.BindArrays | src/app/renderer/mod.rs:208-272 | Binding the vertex arrays logs one BindArrays event and nothing else. |
| Renderer.Renderer.FlushDrawCmds | src/app/renderer/mod.rs:274-395 | The flush logs UseProgram of the current program, then the events of `Flush` over the queue taken. The program and texture end as `Flush` says, the queue ends empty, and the arrays end empty. |
| Renderer.Renderer.FlushLoop | src/app/renderer/mod.rs:282-394 | The loop over the taken commands leaves state and log exactly as `Flush` from the starting state. The invariant is that after i commands they match `Flush` of the first i commands. |
| Renderer.Renderer.FlushOne | src/app/renderer/mod.rs:283-394 | One iteration leaves state and log as `CommandStep`: a conditional program switch, the upload of this command's quad, a conditional texture bind, its model transform and a six-index draw. The arrays end empty. |
| Renderer.Renderer.AssembleSprite | src/app/renderer/mod.rs:291-387 | The four arrays become the old ones followed by the command's quad, based at the current vertex count. Lock-step of the arrays is preserved. The draw call records the command's position, layer depth, pivot, rotation and texture. |
| Renderer.Renderer.SpriteTexCoords | src/app/renderer/mod.rs:300-321 | The computed U and V lists are the normalised, flipped corners that `SpriteUvs` defines. |
| Renderer.Renderer.RenderDrawCalls | src/app/renderer/mod.rs:397-444 | The call uploads the arrays as they were. For each draw call in order, it binds the call's texture only if that texture is not already bound, then sets the model transform and draws. It then clears the arrays and the call list, and the last call's texture stays bound. |
| Renderer.Renderer.CreateBufferData | src/app/renderer/mod.rs:446-485 | It requires the four arrays to be non-empty, as the source asserts. It logs one upload of exactly their contents. |
| Renderer.Renderer.ChangeShaderProgram | src/app/renderer/mod.rs:487-493 | The program becomes current and is used, unconditionally. |
| Renderer.Renderer.ChangeTexture | src/app/renderer/mod.rs:532-537 | The texture becomes bound and is logged, unconditionally. |
| Assembly.UvScale | src/app/renderer/mod.rs:306-307 | The UV divisor is never zero. |
| Assembly.UnflippedUvs | src/app/renderer/mod.rs:309-317 | There are exactly four U and four V values. |
| Assembly.UnflippedUvsCorners | src/app/renderer/mod.rs:306-317 | Scaling each U and V back gives the rectangle's corners (x0,x1,x1,x0) and (y0,y0,y1,y1). A zero-sized axis keeps the pixel values; otherwise the scale is the texture size. |
| Assembly.Swap | src/app/renderer/mod.rs:319-320 | The two positions trade values, and every other position keeps its value. |
| Assembly.FlipShapes | src/app/renderer/mod.rs:319-320 | An X flip permutes the U values to [u1,u0,u3,u2]. A Y flip permutes the V values to [v2,v3,v0,v1]. |
| Assembly.FlipsAreIndependent | src/app/renderer/mod.rs:319-320 | Without the Y flag the V values are unchanged. Without the X flag the U values are unchanged. |
| Assembly.FlipsCompose | src/app/renderer/mod.rs:319-320 | Applying any flip twice gives back the original UVs. X then Y is the same as both flags together, and the same as Y then X. |
| Assembly.SpriteQuadLayout | src/app/renderer/mod.rs:324-373 | A quad has 12 position floats, 16 colour floats, 8 UV floats and 6 indices. Vertex k gets corner k of the w-by-h rectangle, the command's colour and UV pair k. The indices are base + (0,1,2,2,3,0). |
| Assembly.QuadPatternCoversQuad | src/app/renderer/mod.rs:325-332 | The six indices form the triangles (0,1,2) and (2,3,0). Together they use exactly the four vertices. |
| Assembly.EmptyIsLockstep | src/app/renderer/mod.rs:439-442 | Cleared arrays are in lock-step. |
| Assembly.AppendSpriteKeepsLockstep | src/app/renderer/mod.rs:324-373 | Pushing a quad based at vertex floats / 3 keeps every index pointing into its own quad's vertices. It adds exactly one quad. |
| Assembly.LockstepIndicesInRange | src/app/renderer/mod.rs:324-332 | In lock-stepped arrays, every index names an existing vertex. |
| Assembly.DepthIncreasesWithLayer | src/app/renderer/mod.rs:382 | A lower layer gets a strictly smaller depth, and the converse holds too. Layer 0 sits at depth 0.1. |
| Assembly.SpriteDrawCallFields | src/app/renderer/mod.rs:376-387 | A sprite's draw call covers exactly its quad's six indices from the given start. It carries the command's position, pivot, rotation and texture. A higher layer gives a larger z. |
| Dispatch.DispatchOneCall | src/app/renderer/mod.rs:400-436 | Dispatching one call binds its texture only when needed, then sets its model transform and draws its index range. |
| Dispatch.CommandStepDispatches | src/app/renderer/mod.rs:283-394 | One iteration is exactly: the program switch, the upload, and then the dispatch of the sprite's single draw call. Afterwards the sprite's texture is bound. |
| Dispatch.CommandStepCounts | src/app/renderer/mod.rs:283-394 | For any kind of event, an iteration's count and filtered list are the per-event sums over its five possible events. |
| Dispatch.StepFilters | src/app/renderer/mod.rs:283-394 | Each iteration logs exactly one upload (of its own quad), one model transform (its own) and one six-index draw. |
| Dispatch.FlushFilterFollowsCommands | src/app/renderer/mod.rs:282-394 | Suppose each iteration logs exactly one event of a kind, computed from its command. Then the flush logs one such event per command, in submission order, and no others. |
| Dispatch.FlushUploadsInOrder | src/app/renderer/mod.rs:282-394 | The flush uploads once per command, in order, each upload carrying that command's quad. |
| Dispatch.FlushTransformsInOrder | src/app/renderer/mod.rs:376-413 | The flush sets one model transform per command, in order. Each is made of that command's position at its layer's depth, its pivot and its rotation. |
| Dispatch.FlushDrawsOncePerCommand | src/app/renderer/mod.rs:430-435 | The flush draws exactly once per command, each time six indices from index 0. |
| Dispatch.FlushEndsOnLastTexture | src/app/renderer/mod.rs:401-404 | After a non-empty flush, the last command's texture is bound. An empty flush changes and logs nothing. |
| Dispatch.InheritedProgramNeverSwitches | src/app/renderer/mod.rs:284-289 | Commands with program 0 or the current program never cause a UseProgram, and the program stays the same. |
| Dispatch.UniformTextureBindsAtMostOnce | src/app/renderer/mod.rs:401-404 | If every command samples one texture, the flush binds it once, or not at all when it is already bound. |
| Dispatch.AlternatingTexturesBindEveryTime | src/app/renderer/mod.rs:401-404 | If every command's texture differs from the previous one (and the first from the bound one), the flush binds once per command. |
| Dispatch.BatchCostsOneUseAndOneBind | src/app/renderer/mod.rs:274-289 | A batch with one program and one not-yet-bound texture costs exactly one UseProgram and one texture bind for the whole flush. |
| Dispatch.SingleSpriteScenario | src/app/renderer/mod.rs:274-436 | Take a 32x32 sprite from a 64x64 texture at (50,50), layer 0. It gets UVs 0 / 0.5 and unpivoted corners. Its draw call is at (50,50,0.1) with count 6. The flush logs exactly UseProgram, upload, bind, transform, draw. |
| Ids.IdGenerator.Next | src/entities/container.rs:48 | The index handed out is not in use and becomes in use. It is either a previously handed-out index (the count stays) or exactly the next new one (the count grows by one). |
| Ids.IdGenerator.Free | src/entities/container.rs:100 | The freed index is no longer in use, and nothing else changes. |
| Entities.PlaceFillsOneSlot | src/entities/container.rs:61-66 | Storing fills exactly the slot at the index. The table grows by one exactly when the index equals its length. Every other slot is unchanged. |
| Entities.OccupiedAfterPlace | src/entities/container.rs:61-66 | Filling an empty slot adds exactly its index to the occupied ones, which is one entity more. |
| Entities.OccupiedAfterClear | src/entities/container.rs:98-99 | Emptying an occupied slot removes exactly its index, which is one entity fewer. |
| Entities.VisibleSlotsAreTheVisibleOnes | src/entities/container.rs:104-106 | The slots rendered are exactly the occupied ones whose entity is visible: sound and complete, each once, in strictly increasing slot order. |
| Entities.VisibleDrawsFollowSlots | src/entities/container.rs:104-114 | The k-th queued sprite is the transform and sprite of the k-th rendered slot's entity, in white. |
| Entities.EntityContainer.constructor | src/entities/container.rs:28-33 | A new container has no slots and no ids in use. |
| Entities.EntityContainer.Len | src/entities/container.rs:35-37 | The generator's count of ids in use equals the number of occupied slots. |
| Entities.EntityContainer.Get | src/entities/container.rs:39-41 | An in-range id reads exactly its slot (an entity or nothing). An index past the table is an error. |
| Entities.EntityContainer.CreateEntity | src/entities/container.rs:47-69 | The id is fresh and in the table or one past it. The slot becomes an active, visible entity with this transform, sprite and id. Every other slot is unchanged. Get returns the new entity, and Len grows by one. |
| Entities.EntityContainer.CreateEntityAnimated | src/entities/container.rs:71-94 | The same as creation, with the default sprite and the animation set stored. |
| Entities.EntityContainer.DestroyEntity | src/entities/container.rs:96-101 | The occupied slot becomes empty and its id is freed. Get then reads nothing, and Len drops by one. |
| Entities.EntityContainer.Render | src/entities/container.rs:103-115 | The sprites queued are exactly `VisibleDraws` of the slots: one white sprite per occupied visible slot, in slot order. |
| Assets.Lookup | src/app/asset_system.rs:23-27 | After a lookup the path is cached with the returned texture. A hit returns the cached texture and leaves the cache alone. A miss returns the loader's texture. All other entries are kept, and the keys grow by exactly the path. |
| Assets.LookupGrowsByAtMostOne | src/app/asset_system.rs:24-26 | The cache grows by one entry on a miss and none on a hit. |
| Assets.LookupTwice | src/app/asset_system.rs:23-27 | A second lookup of the same path, with any loader, is a hit. It returns the same texture and changes nothing. |
| Assets.AssetSystem.constructor | src/app/asset_system.rs:17-21 | A new asset system has an empty cache and has loaded nothing. |
| Assets.AssetSystem.GetTexture | src/app/asset_system.rs:23-27 | The returned texture and the new cache are those of `Lookup`. The loader is called (and logged) exactly when the path was not cached. |
| Assets.App.constructor | src/app/asset_system.rs:30-35 | The application owns a fresh, empty asset system. |
| Assets.App.GetTexture | src/app/asset_system.rs:33-35 | The request is delegated to the asset system, with the same result and cache behaviour. |

## Left out

- Shader compilation and linking, and `Drop`, are GL work: the default program arrives as a constructor parameter (a handle).
- GL call bodies are recorded as `GpuEvent`s in `gpuLog`, not executed. This covers `bind_arrays`, `BufferData`, `DrawElements` and `UseProgram`.
- The model, view and projection matrices are not built. A SetModelTransform event records the translation, pivot and rotation the matrix is made from. The uniform uploads of `change_shader_program` are folded into its UseProgram event.
- Floating-point numbers (`f32`) are modelled as exact reals, so rounding is not modelled.
- `u32` and `usize` widths are not modelled. The cast of the element base to `u32` cannot wrap here, because the arrays are cleared after every command, so the base is 0.
- `src/main.rs` and `src/entities/mod.rs` are context only. The game loop, entity kinds, animation and the imgui debug drawing are not modelled.
- Renderer.Renderer.QueueDraw: `queue_draw_sprite` is not part of this model. QueueDraw is only an append to the queue; the conversion of a transform and sprite into a command is not modelled.
- Renderer.Renderer.FlushOne: the loop body is a method of its own, and `draw_calls` and `start` are its locals. In the source, `render_draw_calls` clears them and `start` is reset at the end of every iteration, so they are always empty and 0 at the start of one.
- Renderer.Renderer.AssembleSprite: each array gets one append of all of the quad's values. The intermediate states between the source's individual pushes are not modelled.
- Ids.IdGenerator.Next: the id generator's code is not part of this model. This contract does not say which freed index is reused. Id generations, if the generator has them, are not modelled.
- Entities.EntityContainer.Get: in the source, an index past the table panics. The model returns `Err` for it.
- `get_mut` is not modelled: it hands out a mutable borrow of the same slot `get` reads, and borrows have no counterpart here.
- Entities.EntityContainer.DestroyEntity: an empty or out-of-range slot panics in the source. The model makes this a precondition.
- Entities.EntityContainer.Render: `App::queue_draw_sprite` is not part of this model. Render returns the sprites it would queue, in order.
- The entity type parameter `E` is modelled as a stored id, the common `Entity` part and an optional animation set of an opaque type.
- `load_texture` reads a file and creates a GL texture. It is a loader function parameter, and the cache key is the path string itself. `StringRef` interning is not modelled.
- `texture.rs`, `color.rs` and the `Sprite` type are not part of this model. A texture is modelled as a GL object with integer width and height. `WHITE` is (1,1,1,1), and `Sprite::default()` is taken to be all zeros.
