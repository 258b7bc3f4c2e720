# ookami core, modelled in Dafny

This project models the decision and bookkeeping logic at the heart of the
ookami (foxy) engine:

- **Engine loop** (`EngineLoop`, engine_loop.dfy). The frame-stage state machine of
  `Framework`. Each advance reads the previous stage, does the side effects
  of entering the next one and yields it. The effects are:
  - store the window message;
  - wait on the barrier;
  - update or tick the clock;
  - talk to the render thread over the mailbox;
  - run or join the render thread.

  `Step` is the transition table as a pure function. The class
  `Framework` holds `currentStage` and `currentMessage` and an effect log,
  and `NextState` is proved to do exactly what `Step` says. `Run` chains
  advances, and the lemmas about runs give the ordering and count
  properties.
- **Device selection** (`Devices`, device.dfy). These run over the answers Vulkan
  gives:
  - the queue-family search;
  - the first-fit format and memory-type searches;
  - the missing-extension check;
  - the suitability test;
  - the preference-score choice of a physical device;
  - the deduplicated queue create infos of the logical device.
- **Shader-module fallback chain** (`Shaders`, shaders.dfy). The chain tries the
  source, then the same path re-read, then the stage's default source, then
  gives up. `Shader::new` starts the chain and panics when it fails.
- **Shader store** (`ShaderStorage`, shader_storage.dfy). Five per-stage caches map
  a path to a shared shader handle. Each shader is built on first request,
  each wrapper touches only its own cache, and `delete` deletes every
  stored shader once.
- **Logging-session builder** (`LogBuilder`, log_builder.dfy). A four-field
  record with one consuming setter per field.

`Results` (results.dfy) holds `Option`, `Result` and `Unit`. `VulkanErrors`
(vulkan_error.dfy) holds the error values the core returns.

The collaborators are not modelled. What they answer is given as input:
- the window, the clock, the mailbox and the render thread;
- the file system that shader sources are read from;
- every Vulkan query and creation call.

Inputs take these forms:
- **Engine loop.** An `Env` value per advance. What the loop does to a
  collaborator is appended to an effect log.
- **Device selection.** Sequences and functions: queue families, surface
  support per family index, extension names, swap-chain support, format
  properties per format, memory types.
- **Shader chain.** A `ShaderEnv`. It gives the first read of a path, the
  re-read, the default source and the outcome of module creation.

## Model

| member | source | states |
|---|---|---|
| EngineLoop.Step | crates/foxy/src/core/engine_loop.rs:96-199 | the transition table; the polling strategy never changes; `None` is yielded exactly from `ExitLoop`, and then nothing changes and nothing is done; after a `Some`, the stage is the discriminant of the yielded stage; `Initialize` is never re-entered |
| EngineLoop.StepFollowsTable | crates/foxy/src/core/engine_loop.rs:101-194 | every advance moves to a stage that may follow the previous one in `next_state`'s frame order: `Start`, then frames of `BeginFrame`, `EarlyUpdate`, any number of `FixedUpdate`, `Update`, `EndFrame`, with `Exiting` reachable from `Start`, `Update` and `EndFrame`, then `ExitLoop` |
| EngineLoop.InitializeStep | crates/foxy/src/core/engine_loop.rs:102-107 | from the initial state the first advance yields `Start`, runs the render thread and does nothing else |
| EngineLoop.FrameOrExitStep | crates/foxy/src/core/engine_loop.rs:108-119 | from `Start` (and identically from `EndFrame`, lines 169-180) the window is asked once, by `wait` under `Polling::Wait` and `next` otherwise; a message yields `BeginFrame` with it and stores it; no message yields `Exiting` and keeps the stored message |
| EngineLoop.BeginFrameStep | crates/foxy/src/core/engine_loop.rs:120-129 | `BeginFrame` always goes to `EarlyUpdate` carrying the stored message, after one barrier wait followed by one clock update |
| EngineLoop.TickStep | crates/foxy/src/core/engine_loop.rs:130-153 | from `EarlyUpdate` or `FixedUpdate` the next stage is `FixedUpdate` iff a tick is due, and a tick is consumed iff so; otherwise `Update` carrying the message, with no effect |
| EngineLoop.UpdateStep | crates/foxy/src/core/engine_loop.rs:154-168 | `Update` sends the render data; a reply yields `EndFrame` with the message and the reply, a mailbox error yields `Exiting` |
| EngineLoop.ExitingStep | crates/foxy/src/core/engine_loop.rs:181-188 | `Exiting` yields `ExitLoop` after sending `Exit`, waiting on the barrier and joining the render thread, in that order; the result of the `Exit` send does not change the advance |
| EngineLoop.StepEffectCounts | crates/foxy/src/core/engine_loop.rs:101-196 | in one advance, the barrier is waited on exactly when `EarlyUpdate` or `ExitLoop` is entered; the clock is updated exactly on entering `EarlyUpdate` and ticked exactly on entering `FixedUpdate`; the render thread is run exactly on entering `Start` and joined exactly on entering `ExitLoop` |
| EngineLoop.StartAndExitLoopEntries | crates/foxy/src/core/engine_loop.rs:101-196 | `Start` is entered only from `Initialize` and `ExitLoop` only from `Exiting` |
| EngineLoop.Run | crates/foxy/src/core/engine_loop.rs:202-208 | iterating the framework yields one item per advance and never changes the polling strategy |
| EngineLoop.AfterExitLoop | crates/foxy/src/core/engine_loop.rs:189-193 | once the stage is `ExitLoop`, every further advance yields `None`, does nothing and leaves the state unchanged |
| EngineLoop.EffectCountsMatchEntries | crates/foxy/src/core/engine_loop.rs:120-188 | over any run, barrier waits equal the entries into `EarlyUpdate` plus those into `ExitLoop`; clock updates equal the entries into `EarlyUpdate`; ticks equal the entries into `FixedUpdate` |
| EngineLoop.RenderThreadStartedOnce | crates/foxy/src/core/engine_loop.rs:102-107 | over any non-empty run from `Initialize` the render thread is run exactly once; from any other stage it is never run |
| EngineLoop.RenderThreadJoinedOnce | crates/foxy/src/core/engine_loop.rs:181-188 | over any run the render thread is joined once if the run reaches `ExitLoop` from another stage, and never otherwise |
| EngineLoop.RunStartsRenderThreadFirst | crates/foxy/src/core/engine_loop.rs:102-106 | from the state `new` builds, the first item yielded is `Start` and the first effect is running the render thread |
| EngineLoop.ExitWithinTwoAdvances | crates/foxy/src/core/engine_loop.rs:108-119 | when a `Start` or `EndFrame` advance finds no window message, it yields `Exiting`; the next advance yields `ExitLoop`, and every later advance yields `None`; the whole log is the window query, `Exit`, one barrier wait and the join |
| EngineLoop.Framework.constructor | crates/foxy/src/core/engine_loop.rs:69-81 | a new framework is in `Initialize` with no stored message, keeps the polling strategy it is given, and has done nothing yet |
| EngineLoop.Framework.NextWindowMessage | crates/foxy/src/core/engine_loop.rs:88-94 | the answer is the window's `wait` under `Polling::Wait` and its `next` otherwise, and exactly that one call is logged |
| EngineLoop.Framework.NextState | crates/foxy/src/core/engine_loop.rs:96-199 | the yielded stage, the new stage and message, and the effects appended are exactly those of `Step` on the old state; after a `Some` the stage is its discriminant; `None` only in `ExitLoop`, which stays |
| Devices.QueueFamiliesFrom | crates/foxy_renderer/src/vulkan/device.rs:312-335 | after a prefix with no complete pair: success at the first index `k` where both kinds have been seen, with the latest qualifying graphics and present families up to `k`; `Unsupported` iff every query succeeded and no prefix is complete; any other error is a failed support query at some index before completion |
| Devices.FindQueueFamilies | crates/foxy_renderer/src/vulkan/device.rs:299-336 | the loop over the families, remembering the latest graphics-capable and present-capable index and returning at the first index where both are known, answers exactly as the search specification does |
| Devices.QueueFamiliesFound | crates/foxy_renderer/src/vulkan/device.rs:310-332 | on success both indices are below the family count and name qualifying families (graphics: a queue and the GRAPHICS flag; present: a queue and surface support); each is the latest qualifying index up to the larger of the two; every query up to there succeeded; and one kind was absent from every shorter prefix |
| Devices.QueueFamiliesUnsupported | crates/foxy_renderer/src/vulkan/device.rs:335 | the result is the unsupported error iff every support query succeeds and there is no graphics-capable family or no present-capable family |
| Devices.QueueFamiliesQueryError | crates/foxy_renderer/src/vulkan/device.rs:317-321 | any other error is the error of a support query at an index `k`, with every earlier query successful and no complete pair before `k` |
| Devices.FindSupportedFormat | crates/foxy_renderer/src/vulkan/device.rs:67-89 | the first candidate whose features for the requested tiling (LINEAR or OPTIMAL) contain the requested features; `B8G8R8_UNORM` when there is none |
| Devices.FindMemoryType | crates/foxy_renderer/src/vulkan/device.rs:91-102 | as written: the first memory type whose heap index's bit is set in the filter and whose flags contain the requested properties; the default memory type when there is none |
| Devices.FindMemoryTypeByIndex | crates/foxy_renderer/src/vulkan/device.rs:91-102 | corrected: the first memory type `i` whose bit `i` is set in the filter and whose flags contain the properties; the default memory type when there is none |
| Devices.HeapBitMissesAllowedType | crates/foxy_renderer/src/vulkan/device.rs:95 | on two memory types sharing heap 0, with filter `0b10` and device-local memory requested, the as-written search gives the default memory type, while the filter allows type 1, which is device-local |
| Devices.Missing | crates/foxy_renderer/src/vulkan/device.rs:197-202 | a name is missing iff it is requested and not supported; there are never more missing names than requested ones |
| Devices.MissingAppend | crates/foxy_renderer/src/vulkan/device.rs:197-202 | the missing names keep the requested order: missing names of a concatenation are the concatenation of missing names |
| Devices.ExtensionsCheck | crates/foxy_renderer/src/vulkan/device.rs:188-211 | a failed listing is passed on; otherwise success iff every requested extension is supported, and the failure reports exactly the missing names, in requested order |
| Devices.DeviceExtensionsSupported | crates/foxy_renderer/src/vulkan/device.rs:188-211 | the loop that pushes every unsupported requested extension answers exactly as `ExtensionsCheck` |
| Devices.IsSuitable | crates/foxy_renderer/src/vulkan/device.rs:257-297 | `is_suitable`, with its early `false` on a failed swap-chain query; what it means is stated by the lemmas `Devices.SuitableIff` and `Devices.SwapchainIgnoredWithoutExtensions` below |
| Devices.SuitableIff | crates/foxy_renderer/src/vulkan/device.rs:257-297 | a device is suitable iff all four hold: its queue families are found; it lists every required extension; its swap chain is queried successfully and has at least one format and one present mode; its features are supported |
| Devices.SwapchainIgnoredWithoutExtensions | crates/foxy_renderer/src/vulkan/device.rs:275-286 | when the extension check fails, the device is unsuitable whatever the swap-chain query answers |
| Devices.Score | crates/foxy_renderer/src/vulkan/device.rs:113-120 | discrete 0, integrated 1, virtual 2, CPU 3, other 4, and 5 for any other value, each iff the type is that one |
| Devices.FirstMin | crates/foxy_renderer/src/vulkan/device.rs:111-121 | `min_by_key` keeps the first of the lowest present keys; there is none iff no key is present |
| Devices.KeysChooseFirstBest | crates/foxy_renderer/src/vulkan/device.rs:108-122 | the first minimum of the keys is a device that is suitable, scores no worse than any suitable device and strictly better than every suitable device before it; there is none iff no device is suitable |
| Devices.PickPhysicalDevice | crates/foxy_renderer/src/vulkan/device.rs:104-130 | a failed enumeration is passed on; otherwise, with each device keyed by its score when suitable and dropped otherwise, an error ("Failed to find valid physical device") iff no device is suitable, else the first suitable device of lowest score |
| Devices.DiscretePreferred | crates/foxy_renderer/src/vulkan/device.rs:111-121 | when a suitable discrete GPU exists, a discrete GPU is chosen, at or before it |
| Devices.QueueCreateInfos | crates/foxy_renderer/src/vulkan/device.rs:138-150 | one create info per distinct family of {graphics, present}, each with queue count 1: one info when the families coincide, two otherwise, and no family twice |
| Devices.NewLogicalDevice | crates/foxy_renderer/src/vulkan/device.rs:132-186 | a failed family search is passed on, and a failed creation gives "Failed to create logical graphics device"; otherwise it succeeds with queues of the graphics and present families and the deduplicated create infos |
| Shaders.BuildShaderModule | crates/foxy_vulkan/src/shader.rs:82-117 | the sources handed to module creation start with the given one and number at most one more than the attempts left; every creation but the last failed; success returns the last creation's module; an error only after the last attempt's creation failed |
| Shaders.SuccessIsReturnedAtOnce | crates/foxy_vulkan/src/shader.rs:94-95 | a successful creation returns its module at once, whatever the attempt, trying nothing else |
| Shaders.FailureMovesDownTheChain | crates/foxy_vulkan/src/shader.rs:96-109 | a failure on `First` retries with the same path re-read at `Second`; on `Second`, with the default source at `Last`; on `Last`, it returns a `Shader` error with no further attempt |
| Shaders.ChainFromFirst | crates/foxy_vulkan/src/shader.rs:96-109 | from `First`, the sources tried are a prefix of (source, re-read source, default source), so at most three creations; the chain fails iff all three fail |
| Shaders.NewShader | crates/foxy_vulkan/src/shader.rs:54-65 | `Shader::new` reads the path and starts the chain at `First`; it panics with "fallbacks should never fail to compile" iff the three creations fail, and otherwise returns a shader of its stage with the first module that was created |
| ShaderStorage.GetShaderSpec | crates/foxy_renderer/src/vulkan/shader/storage.rs:83-91 | `get_shader` on one cache: `Shader::new` runs iff the path is uncached; a returned handle is the one cached under the path afterwards, and a newly built one has the fresh id; it panics iff the path is uncached and the build panics, and then the cache is unchanged; other paths keep their entries, and a cached path leaves the cache as it was |
| ShaderStorage.CachedPathIsReused | crates/foxy_renderer/src/vulkan/shader/storage.rs:84-85 | a cached path gives the stored handle, builds nothing and leaves the cache unchanged |
| ShaderStorage.UncachedPathIsBuiltOnce | crates/foxy_renderer/src/vulkan/shader/storage.rs:86-90 | an uncached path builds one shader into a new handle, adds exactly that path to the cache, and returns the handle it stored |
| ShaderStorage.GetShaderIsIdempotent | crates/foxy_renderer/src/vulkan/shader/storage.rs:83-91 | after a `get_shader` that returns, the path is cached under the returned handle and other paths are unchanged; asking again gives the same handle, builds nothing and changes nothing |
| ShaderStorage.InsertKeepsValid | crates/foxy_renderer/src/vulkan/shader/storage.rs:86-88 | caching a fresh handle of the cache's own kind keeps the store invariant: each cache holds its own kind and no handle is stored twice |
| ShaderStorage.GetShaderKeepsValid | crates/foxy_renderer/src/vulkan/shader/storage.rs:83-91 | every `get_shader` keeps the store invariant |
| ShaderStorage.DeleteEach | crates/foxy_renderer/src/vulkan/shader/storage.rs:25-27 | deleting one cache's values deletes one handle per entry, only stored ones, and, when no handle is stored under two paths, each stored handle exactly once |
| ShaderStorage.DeletedOnce | crates/foxy_renderer/src/vulkan/shader/storage.rs:24-40 | deleting the five caches in turn deletes every handle stored in any cache exactly once, and nothing else |
| ShaderStorage.ShaderStore.constructor | crates/foxy_renderer/src/vulkan/shader/storage.rs:47-56 | a new store has all five caches empty and satisfies the store invariant |
| ShaderStorage.ShaderStore.GetShader | crates/foxy_renderer/src/vulkan/shader/storage.rs:78-91 | the handle returned, the new cache of the kind asked for, the shaders built and the ids used are exactly those of the `get_shader` specification; the other caches are untouched |
| ShaderStorage.ShaderStore.BuildInto | crates/foxy_renderer/src/vulkan/shader/storage.rs:86-90 | on an uncached path: one `Shader::new`; a built shader gets a fresh handle that is cached under the path and returned |
| ShaderStorage.ShaderStore.GetVertex | crates/foxy_renderer/src/vulkan/shader/storage.rs:58-60 | `get_shader` on the vertex cache only; the store invariant is kept |
| ShaderStorage.ShaderStore.GetFragment | crates/foxy_renderer/src/vulkan/shader/storage.rs:62-64 | `get_shader` on the fragment cache only; the store invariant is kept |
| ShaderStorage.ShaderStore.GetCompute | crates/foxy_renderer/src/vulkan/shader/storage.rs:66-68 | `get_shader` on the compute cache only; the store invariant is kept |
| ShaderStorage.ShaderStore.GetGeometry | crates/foxy_renderer/src/vulkan/shader/storage.rs:70-72 | `get_shader` on the geometry cache only; the store invariant is kept |
| ShaderStorage.ShaderStore.GetMesh | crates/foxy_renderer/src/vulkan/shader/storage.rs:74-76 | `get_shader` on the mesh cache only; the store invariant is kept |
| ShaderStorage.ShaderStore.Delete | crates/foxy_renderer/src/vulkan/shader/storage.rs:24-40 | `delete` is called exactly once on every shader stored in any of the five caches, and on nothing else; the caches are left in place |
| LogBuilder.New | crates/foxy_util/src/log/builder.rs:23-30 | empty filter, thread names on, file names off, line numbers off |
| LogBuilder.Default | crates/foxy_util/src/log/builder.rs:16-20 | `default()` is `new()` |
| LogBuilder.WithFilter | crates/foxy_util/src/log/builder.rs:32-39 | the filter becomes the argument and no other field changes |
| LogBuilder.WithThreadNames | crates/foxy_util/src/log/builder.rs:41-48 | `thread_names` becomes the argument and no other field changes |
| LogBuilder.WithFileNames | crates/foxy_util/src/log/builder.rs:50-57 | `file_names` becomes the argument and no other field changes |
| LogBuilder.WithLineNumbers | crates/foxy_util/src/log/builder.rs:59-66 | `line_numbers` becomes the argument and no other field changes |
| LogBuilder.SettersCommute | crates/foxy_util/src/log/builder.rs:32-66 | setters of different fields commute |
| LogBuilder.LastWriteWins | crates/foxy_util/src/log/builder.rs:32-66 | a second write to a field overrides the first |
| LogBuilder.SettersSpanAllSessions | crates/foxy_util/src/log/builder.rs:23-66 | every session is reached from `new()` by the four setters |

## Left out

- Threads, the barrier, the mailbox transport and the render loop are not modelled (engine_loop.rs:59-67). The model logs a barrier wait, a run or join of the render thread and a mailbox send as effects. The reply to `send_and_wait` and the result of `send(Exit)` are inputs.
- The fixed-timestep clock is floating-point and its source is not part of this model. `should_do_tick` is an input, and `update` and `tick` are logged effects.
- The window, the renderer and the log output that `Framework::new` creates are not modelled, nor the errors their creation can raise. The constructor starts from the state `new` leaves behind.
- The `Iterator` implementation only erases a lifetime with `transmute` and calls `next_state`. `Run` models iterating it as repeated advances.
- The stage values hold `&mut Foxy`, and `BeginFrame`, `EarlyUpdate`, `Update` and `EndFrame` also lend the stored window message as `&mut` (crates/foxy/src/core/engine_loop.rs:114-175). The model does not capture this aliasing: its stages carry a copy of the message and the render response, so a caller that writes through the lent message between advances is not modelled, and `Machine.message` changes only where the loop stores a new window message (lines 111 and 172).
- Vulkan calls are not modelled; what they return is an input. This covers:
  - device and shader-module creation;
  - `get_device_queue`;
  - the feature structs and their `p_next` chain;
  - `destroy_shader_module`.
- `device_features_supported` is not modelled, because it reinterprets one `p_next` pointer as three structure types. Its outcome is the `featuresSupported` input.
- `Device::new`, the `Device` accessors and `Device::delete` are not modelled; they only hold and release Vulkan objects.
- The queue priority `1.0` is left out, because it is a float that no decision depends on.
- The `i as u32` cast of family indices is left out, because a family count is far below 2^32.
- The model assumes a heap index below 16, because Vulkan has at most 16 memory heaps. It therefore does not model the overflowing shift `1 << heap_index` for larger values.
- `FindMemoryType` takes the whole `memory_types` array, which has 32 entries, as the sequence `types`, and `memory_type_count` plays no part. This matches the source, which also walks the whole array.
- The error-message texts of error.rs are not modelled, and error.rs itself is not part of this model.
  - An `Unsupported` error carries a structured reason, `Unmet`: either no queue families, or the list of missing extensions. The source formats this reason into a string.
  - A failed `vk::Result` passed on with `?` becomes `Vk(code)`.
  - `.context(..)` becomes `Error(message)`.
  - The error.rs in the source is the vulkano-era error enum, which has no variant for `vk::Result`.
- The shader stage and source types (stage.rs, source.rs) are not part of this model.
  - The entry-point string a shader keeps is left out; the stage kind, which fixes it, is kept.
  - Source reading and compilation are the `ShaderEnv` inputs.
  - The store's `Shader::new` is modelled after crates/foxy_vulkan/src/shader.rs.
- The `Shader` error text of the last attempt is the literal `"... failure ({err})"`. The source builds it with `.into()` on a string literal, so `{err}` is not interpolated, and the model keeps the literal.
- A `Handle` is modelled by an id and its shader: `Handle::new` gives a fresh id and a clone keeps the id. Reference counting and interior mutability (`get_mut`) are left out.
- ShaderStorage.ShaderStore.Delete: does not state the order in which the handles are deleted, because `HashMap::values_mut` order is unspecified. The iteration order of `HashMap` and `HashSet` is a nondeterministic choice throughout.
- `LoggingSession::finalize` and `start`, and all `tracing` output, are thin wrappers over `tracing_subscriber` and are left out. The filter is kept as the directive string it is built from (`EnvFilter` parsing is left out).
- simple.rs is graphics-API pipeline setup and is not part of this model.

## Findings

| source | as written | input that shows it | evidently intended | confidence | as-written member | corrected member |
|---|---|---|---|---|---|---|
| crates/foxy_renderer/src/vulkan/device.rs:95 | accepts a memory type when bit `heap_index` of `type_filter` is set | two memory types on heap 0, host-visible then device-local; filter `0b10` (only type 1 allowed); device-local requested: the as-written search returns the default memory type | bit `i` of the filter allows memory type `i` (the Vulkan standard's `memoryTypeBits`), so type 1 is returned | not executed | Devices.FindMemoryType (shown by Devices.HeapBitMissesAllowedType) | Devices.FindMemoryTypeByIndex |
