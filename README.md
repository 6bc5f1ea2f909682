# Inexor vulkan-renderer: render graph, pipeline builder and frame recording

This project models the core of the Inexor Vulkan renderer in Dafny and proves properties of that model.

The core has six parts:

- **The render graph** (`render_graph.cpp`). Stages declare the textures and buffers they write and read. `compile` makes four things:
  - a writers map;
  - a post-order depth-first stage stack that starts from the writers of the target resource;
  - a physical buffer or texture per resource;
  - per stacked stage, a render pass, a pipeline layout, a graphics pipeline and one framebuffer per swapchain image.

  Each frame, `render` re-uploads the buffers flagged for upload. It then records every stacked stage into the command buffer.
- **The graphics pipeline builder.** A mutable record of pipeline state. `reset()` restores the defaults; `build(name)` turns the state into a pipeline create-info and then resets.
- **The command buffer wrapper.** A log of recorded commands, with the wrapper's default arguments and chaining.
- **Octree vertex deduplication.** `generate_octree_indices` turns a vertex list into distinct vertices plus an index list.
- **The ImGui overlay and renderer callbacks.** They flatten ImGui's per-list index and vertex chunks. They also issue one indexed draw per draw command, with running index and vertex offsets.
- **Small checks in the application.** The window-mode mapping, the GPU-index check, and the key and mouse-button guards.

## How the model is organized

Vulkan objects are opaque `Handle`s (`nat`). The graph draws them from a counter.

A command buffer is a class whose `log` field is the sequence of recorded commands. Every recording method appends its command with all of its arguments.

**The render graph** is `RenderGraphs.RenderGraph`. Its resources and stages live in `seq` fields and are named by index. Each declaration method rewrites one entry.

Each step of `compile` is a method proved against a function in one of two modules:

- `RenderGraphModel` covers attachments, vertex input, the pipeline create-info, framebuffers, buffer uploads and the per-stage command sequence.
- `RenderGraphOrder` covers the writers map and the depth-first order.

**The depth-first search** has no visited set and no cycle check. The model runs it only on graphs with a ranking: a ghost `rank` in which every producer of a stage ranks below that stage (`Ranked`). The ranking is the precondition and also the termination measure.

The order is the ghost function `Order`, and two properties are proved about it:

- every producer occurrence comes before its consumer (`ProducersFirst`);
- exactly the stages that reach the target through writers appear.

A concrete diamond-shaped graph shows that a shared producer is pushed twice.

**A compile failure** is a value of type `CompileError`. It is one of two cases:

- a vertex or uniform buffer read without a recorded binding is `MissingBufferBinding`. In the source, `std::unordered_map::at` throws here;
- an empty vertex input is `EmptyVertexInput`. This stands for the debug-build `assert`s at the top of the builder's `build`; a release build compiles those out.

In the source both cases are exceptions that nothing catches, so no frame is rendered after a failed compile. The model keeps the error in `compileError`, and `RenderFrame` renders only when no error is pending.

The renderer's own setup is `Renderer.VulkanRenderer`. It declares the main stage, and the ImGui overlay adds its stage. The model then proves that compiling this graph schedules the main stage before the overlay.

It also proves that compiling stops with `MissingBufferBinding(1, 3)`, for three reasons:

- the overlay stage reads its vertex buffer;
- it never calls `bind_buffer`;
- `build_graphics_pipeline` therefore finds no binding for that buffer.

`generate_octree_indices` appears twice, identically: application.cpp:219-236 and renderer.cpp:53-70. One model covers both.

The header `render_graph.hpp` is not part of this model. The small setters it defines are modelled from their call sites in `renderer.cpp` and `imgui.cpp`:

- `add<...>`, `set_format` and `upload_data`;
- `set_clears_screen` and `set_depth_options`;
- `add_descriptor_layout`, `add_push_constant_range` and `add_color_blend_attachment`.

## Model

| member | source | states |
|---|---|---|
| Application.WindowModeFor | src/vulkan-renderer/application.cpp:276-285 | "windowed_fullscreen" and "fullscreen" map to their modes; every other string, "windowed" included, gives Windowed (each direction stated as an iff) |
| Application.ChoosePhysicalDevice | src/vulkan-renderer/application.cpp:136-169 | fails with "Invalid GPU index" exactly when a preferred index is at least the device count; otherwise uses the preferred index, or picks the best device when none is given |
| Application.KeyEvent | src/vulkan-renderer/application.cpp:238-253 | an event exists iff 0 <= key <= GLFW_KEY_LAST and the action is PRESS or RELEASE; PRESS presses the key, RELEASE releases it |
| Application.MouseButtonEvent | src/vulkan-renderer/application.cpp:328-343 | the same guard for buttons against GLFW_MOUSE_BUTTON_LAST, with press and release of the button |
| Application.InputForwarder.constructor | src/vulkan-renderer/application.cpp:238-253 | the forwarder starts with no events delivered to the input state |
| Application.InputForwarder.KeyCallback | src/vulkan-renderer/application.cpp:238-253 | the input state receives exactly the event KeyEvent gives, or nothing |
| Application.InputForwarder.MouseButtonCallback | src/vulkan-renderer/application.cpp:328-343 | the input state receives exactly the event MouseButtonEvent gives, or nothing |
| Commands.CommandBuffer.constructor | include/inexor/vulkan-renderer/wrapper/command_buffer.hpp:26 | a new command buffer has recorded nothing |
| Commands.CommandBuffer.BeginCommandBuffer | include/inexor/vulkan-renderer/wrapper/command_buffer.hpp:38 | appends one begin with the given flags (default 0) and returns the same buffer |
| Commands.CommandBuffer.BeginRenderPass | include/inexor/vulkan-renderer/wrapper/command_buffer.hpp:44-45 | appends one render-pass begin (default contents INLINE) and returns the same buffer |
| Commands.CommandBuffer.BindDescriptorSets | include/inexor/vulkan-renderer/wrapper/command_buffer.hpp:54-58 | appends one bind with bind point GRAPHICS, first set 0 and no dynamic offsets unless given, and returns the same buffer |
| Commands.CommandBuffer.BindIndexBuffer | include/inexor/vulkan-renderer/wrapper/command_buffer.hpp:65-66 | appends one bind with index type UINT32 and offset 0 unless given, and returns the same buffer |
| Commands.CommandBuffer.BindPipeline | include/inexor/vulkan-renderer/wrapper/command_buffer.hpp:72-73 | appends one pipeline bind at the GRAPHICS bind point unless given, and returns the same buffer |
| Commands.CommandBuffer.BindVertexBuffers | include/inexor/vulkan-renderer/wrapper/command_buffer.hpp:80-82 | appends one bind with first binding 0 and no offsets unless given, and returns the same buffer |
| Commands.CommandBuffer.PushConstants | include/inexor/vulkan-renderer/wrapper/command_buffer.hpp:89 | appends one push-constant command and returns nothing |
| Commands.CommandBuffer.End | include/inexor/vulkan-renderer/wrapper/command_buffer.hpp:92 | appends one end command |
| Commands.CommandBuffer.Draw | include/inexor/vulkan-renderer/wrapper/command_buffer.hpp:99 | appends one draw of the given vertex count |
| Commands.CommandBuffer.DrawIndexed | include/inexor/vulkan-renderer/wrapper/command_buffer.hpp:103 | appends one indexed draw of the given index count; the header's one-argument form draws one instance from index 0 at vertex offset 0, and the four-argument call in imgui.cpp passes all four |
| Commands.CommandBuffer.EndRenderPass | include/inexor/vulkan-renderer/wrapper/command_buffer.hpp:106 | appends one render-pass end |
| Commands.CommandBuffer.FullBarrier | src/vulkan-renderer/render_graph.cpp:116 | appends one full memory barrier |
| Commands.CommandBuffer.RecordAll | src/vulkan-renderer/render_graph.cpp:109 | appends exactly the given commands, in order (a stage's callback) |
| Commands.RecordWithDefaults | include/inexor/vulkan-renderer/wrapper/command_buffer.hpp:38-82 | chaining begin, render-pass begin and the four binds with default arguments records exactly those commands with the documented defaults |
| ImGuiDraw.IndexChunks | src/vulkan-renderer/renderers/imgui.cpp:43-47 | definition: one chunk per command list, equal to that list's index buffer (ConcatAt and the collecting loops carry the proved content) |
| ImGuiDraw.VertexChunks | src/vulkan-renderer/renderers/imgui.cpp:43-50 | definition: one chunk per command list, equal to that list's vertex buffer (ConcatAt and the collecting loops carry the proved content) |
| ImGuiDraw.ConcatAt | src/vulkan-renderer/renderers/imgui.cpp:43-51 | element j of chunk i sits in the concatenation at (total length of the earlier chunks) + j |
| ImGuiDraw.AppendAll | src/vulkan-renderer/renderers/imgui.cpp:45-47 | the push_back loop leaves the data followed by the whole chunk |
| ImGuiDraw.ListDrawsAt | src/vulkan-renderer/renderers/imgui.cpp:146-150 | one list issues one draw per command: instance count 1, index offset = base + sum of earlier ElemCounts (mod 2^32), and the list's vertex offset |
| ImGuiDraw.DrawCommandsAt | src/vulkan-renderer/renderers/imgui.cpp:142-152 | draw j of list i is at position (number of earlier draw commands) + j; its index offset is the sum of all earlier ElemCounts (mod 2^32) and its vertex offset the sum of the earlier lists' vertex counts |
| ImGuiDraw.DrawCommandsLength | src/vulkan-renderer/renderers/imgui.cpp:144-152 | exactly one draw per draw command over all lists |
| ImGuiDraw.RecordDraws | src/vulkan-renderer/renderers/imgui.cpp:142-152 | the nested loop with its running index_offset and vertex_offset records exactly DrawCommands(lists) |
| ImGuiDraw.RecordListDraws | src/vulkan-renderer/renderers/imgui.cpp:146-150 | the inner loop records one list's draws and returns the advanced index offset, wrapped to 32 bits |
| ImGuiOverlays.OverlayStage | src/vulkan-renderer/imgui.cpp:89-126 | the ImGui stage writes only the back buffer, reads the index buffer then the vertex buffer, and has no buffer binding; its blend attachment enables blending with colour factors SRC_ALPHA and ONE_MINUS_SRC_ALPHA, alpha factors ONE and ZERO, ADD for both ops, and all four colour components written |
| ImGuiOverlays.Uploaded | src/vulkan-renderer/imgui.cpp:166 | upload_data flags exactly the one buffer for upload with data size = element size * count; every other buffer is unchanged |
| ImGuiOverlays.OverlayRecording | src/vulkan-renderer/imgui.cpp:128-131 | no draw data records nothing |
| ImGuiOverlays.ImGuiOverlay.constructor | src/vulkan-renderer/imgui.cpp:86-126 | appends an index buffer and a vertex buffer named "ImGui" and one stage (OverlayStage) to the graph; the collected data starts empty |
| ImGuiOverlays.ImGuiOverlay.OnUpdate | src/vulkan-renderer/imgui.cpp:150-178 | with no draw data or a zero total, nothing changes; otherwise index data is rebuilt from the chunks and uploaded only if its size differs from TotalIdxCount, and vertex data likewise against TotalVtxCount |
| ImGuiOverlays.ImGuiOverlay.CollectIndices | src/vulkan-renderer/imgui.cpp:159-165 | the clear-and-refill loop leaves the concatenation of every list's index chunk |
| ImGuiOverlays.ImGuiOverlay.CollectVertices | src/vulkan-renderer/imgui.cpp:169-175 | the clear-and-refill loop leaves the concatenation of every list's vertex chunk |
| ImGuiOverlays.ImGuiOverlay.OnRecord | src/vulkan-renderer/imgui.cpp:127-149 | records exactly OverlayRecording: nothing without draw data, else descriptor bind, push constants and the draws |
| ImGuiOverlays.OverlayRecordingDraws | src/vulkan-renderer/imgui.cpp:135-148 | after the two binds, draw j of list i has instance count 1, index offset = sum of earlier ElemCounts and vertex offset = sum of earlier lists' vertex counts |
| ImGuiRenderers.ImGuiRecordingShape | src/vulkan-renderer/renderers/imgui.cpp:128-153 | pipeline, vertex buffer, index buffer, descriptor set and push constants are bound first, even without draw data; then one indexed single-instance draw per draw command |
| ImGuiRenderers.DrawsAreIndexed | src/vulkan-renderer/renderers/imgui.cpp:148 | every draw issued is draw_indexed with instance count 1 |
| ImGuiRenderers.ListDrawsAreIndexed | src/vulkan-renderer/renderers/imgui.cpp:146-150 | every draw one list issues is draw_indexed with instance count 1 |
| ImGuiRenderers.CollectChunks | src/vulkan-renderer/renderers/imgui.cpp:39-51 | the loop leaves the concatenations of all index chunks and of all vertex chunks, in list order |
| ImGuiRenderers.ImGuiRenderer.constructor | src/vulkan-renderer/renderers/imgui.cpp:15-21 | the renderer starts with no collected data and no update requests |
| ImGuiRenderers.ImGuiRenderer.UpdateVertexBuffer | src/vulkan-renderer/renderers/imgui.cpp:33-54 | missing draw data or a zero total touches nothing; otherwise both data vectors become the chunk concatenations and one vertex update is requested with them |
| ImGuiRenderers.ImGuiRenderer.UpdateIndexBuffer | src/vulkan-renderer/renderers/imgui.cpp:56-59 | every call requests one index update with the collected index data |
| ImGuiRenderers.ImGuiRenderer.RecordCommandBuffer | src/vulkan-renderer/renderers/imgui.cpp:128-153 | records exactly ImGuiRecording (the binds, then the draws when there is draw data) |
| OctreeIndices.DistinctElements | src/vulkan-renderer/application.cpp:226-231 | the deduplicated list holds exactly the input's vertices, has no duplicates and is no longer than the input |
| OctreeIndices.DistinctOrder | src/vulkan-renderer/application.cpp:226-229 | deduplicated vertices appear in first-occurrence order |
| OctreeIndices.DistinctGrows | src/vulkan-renderer/application.cpp:224-230 | deduplicating a prefix gives a prefix of the result |
| OctreeIndices.IndicesReconstruct | src/vulkan-renderer/application.cpp:224-232 | one index per input vertex, each below the distinct count, and new_vertices[indices[k]] == old_vertices[k] |
| OctreeIndices.IndicesFitU32 | src/vulkan-renderer/renderer.cpp:60-62 | when the distinct count fits in uint32, every index is below the uint32 maximum |
| OctreeIndices.OctreeGeometry.constructor | src/vulkan-renderer/application.cpp:219-222 | the geometry holds the given vertex list and no indices yet |
| OctreeIndices.OctreeGeometry.GenerateOctreeIndices | src/vulkan-renderer/application.cpp:219-236 | the map-and-push loop leaves vertices = the distinct vertices of the old list and indices = their positions |
| PipelineBuilders.CreateInfoFor | src/vulkan-renderer/wrapper/pipelines/pipeline_builder.cpp:44-99 | definition of the create-info that Build hands over: vertex input and viewport counts equal the vector sizes; the dynamic state is filled only when there are dynamic states; exactly one colour attachment in the swapchain format; the stored depth and stencil formats and layout; a null render pass |
| PipelineBuilders.GraphicsPipelineBuilder.constructor | src/vulkan-renderer/wrapper/pipelines/pipeline_builder.cpp:9-11 | a new builder is in reset state, with no shaders, colour attachments, blend states or push-constant ranges and a null descriptor-set layout |
| PipelineBuilders.GraphicsPipelineBuilder.Move | src/vulkan-renderer/wrapper/pipelines/pipeline_builder.cpp:13-35 | the new builder takes every moved member of the builder moved from; in that builder the pipeline layout becomes null and the seven moved vectors (dynamic states, viewports, scissors, shader stages, vertex bindings and attributes, blend attachment states) become empty, and the rest of it is unchanged |
| PipelineBuilders.GraphicsPipelineBuilder.ReleaseMoved | src/vulkan-renderer/wrapper/pipelines/pipeline_builder.cpp:27-34 | what a move leaves in the builder moved from: a null layout and the seven moved vectors empty, every other member untouched |
| PipelineBuilders.GraphicsPipelineBuilder.Reset | src/vulkan-renderer/wrapper/pipelines/pipeline_builder.cpp:109-167 | restores every default reset covers and leaves shader stages, colour attachments, blend states, push-constant ranges and the descriptor-set layout as they were |
| PipelineBuilders.GraphicsPipelineBuilder.ResetFormatsAndLayout | src/vulkan-renderer/wrapper/pipelines/pipeline_builder.cpp:110-113 | all three formats UNDEFINED and the layout null |
| PipelineBuilders.GraphicsPipelineBuilder.ResetVertexInput | src/vulkan-renderer/wrapper/pipelines/pipeline_builder.cpp:115-119 | vertex bindings and attributes cleared, empty vertex-input create-info |
| PipelineBuilders.GraphicsPipelineBuilder.ResetViewportState | src/vulkan-renderer/wrapper/pipelines/pipeline_builder.cpp:132-136 | viewports and scissors cleared, empty viewport create-info |
| PipelineBuilders.GraphicsPipelineBuilder.ResetFixedFunction | src/vulkan-renderer/wrapper/pipelines/pipeline_builder.cpp:121-161 | TRIANGLE_LIST without restart, FILL / BACK / CLOCKWISE with line width 1, one sample without sample shading, empty tessellation, depth-stencil and colour-blend state |
| PipelineBuilders.GraphicsPipelineBuilder.ResetDynamicState | src/vulkan-renderer/wrapper/pipelines/pipeline_builder.cpp:163-166 | dynamic states cleared, empty dynamic-state create-info |
| PipelineBuilders.GraphicsPipelineBuilder.Build | src/vulkan-renderer/wrapper/pipelines/pipeline_builder.cpp:37-107 | requires a non-empty name, vertex bindings and attributes, a viewport, a scissor and a layout; returns the named pipeline made from CreateInfoFor of the state before the call, and leaves the builder in reset state |
| PipelineBuilders.GraphicsPipelineBuilder.WriteCreateInfos | src/vulkan-renderer/wrapper/pipelines/pipeline_builder.cpp:44-77 | the create-info members written are those of CreateInfoFor the current state |
| PipelineBuilders.GraphicsPipelineBuilder.AddColorAttachmentFormat | include/inexor/vulkan-renderer/wrapper/pipelines/pipeline_builder.hpp:125-128 | appends the format to the colour attachments, changes nothing else, returns the same builder |
| PipelineBuilders.GraphicsPipelineBuilder.AddColorBlendAttachment | include/inexor/vulkan-renderer/wrapper/pipelines/pipeline_builder.hpp:130-134 | appends the blend state, changes nothing else, returns the same builder |
| PipelineBuilders.GraphicsPipelineBuilder.AddPushConstantRange | include/inexor/vulkan-renderer/wrapper/pipelines/pipeline_builder.hpp:140-146 | appends (stage, offset, size) with offset 0 by default, changes nothing else, returns the same builder |
| PipelineBuilders.GraphicsPipelineBuilder.AddShader | include/inexor/vulkan-renderer/wrapper/pipelines/pipeline_builder.hpp:148-151 | appends the shader stage, changes nothing else, returns the same builder |
| PipelineBuilders.GraphicsPipelineBuilder.SetShaders | src/vulkan-renderer/render_graph.cpp:246 | replaces the shader stages, changes nothing else, returns the same builder |
| PipelineBuilders.GraphicsPipelineBuilder.SetColorBlend | include/inexor/vulkan-renderer/wrapper/pipelines/pipeline_builder.hpp:158-161 | replaces the colour-blend state only, returns the same builder |
| PipelineBuilders.GraphicsPipelineBuilder.SetColorBlendAttachments | include/inexor/vulkan-renderer/wrapper/pipelines/pipeline_builder.hpp:163-168 | replaces the blend attachment states only, returns the same builder |
| PipelineBuilders.GraphicsPipelineBuilder.SetDepthAttachmentFormat | include/inexor/vulkan-renderer/wrapper/pipelines/pipeline_builder.hpp:176-179 | replaces the depth format only, returns the same builder |
| PipelineBuilders.GraphicsPipelineBuilder.SetDescriptorSetLayout | include/inexor/vulkan-renderer/wrapper/pipelines/pipeline_builder.hpp:181-184 | replaces the descriptor-set layout only, returns the same builder |
| PipelineBuilders.GraphicsPipelineBuilder.SetDepthStencil | include/inexor/vulkan-renderer/wrapper/pipelines/pipeline_builder.hpp:186-191 | replaces the depth-stencil state only, returns the same builder |
| PipelineBuilders.GraphicsPipelineBuilder.SetDynamicStates | include/inexor/vulkan-renderer/wrapper/pipelines/pipeline_builder.hpp:193-196 | replaces the dynamic states only, returns the same builder |
| PipelineBuilders.GraphicsPipelineBuilder.SetStencilAttachmentFormat | include/inexor/vulkan-renderer/wrapper/pipelines/pipeline_builder.hpp:198-201 | replaces the stencil format only, returns the same builder |
| PipelineBuilders.GraphicsPipelineBuilder.SetInputAssembly | include/inexor/vulkan-renderer/wrapper/pipelines/pipeline_builder.hpp:203-209 | replaces the input-assembly state only, returns the same builder |
| PipelineBuilders.GraphicsPipelineBuilder.SetPipelineLayout | include/inexor/vulkan-renderer/wrapper/pipelines/pipeline_builder.hpp:223-226 | replaces the pipeline layout only, returns the same builder |
| PipelineBuilders.GraphicsPipelineBuilder.SetPrimitiveTopology | include/inexor/vulkan-renderer/wrapper/pipelines/pipeline_builder.hpp:228-231 | replaces the topology inside the input-assembly state only, returns the same builder |
| PipelineBuilders.GraphicsPipelineBuilder.SetRasterization | include/inexor/vulkan-renderer/wrapper/pipelines/pipeline_builder.hpp:233-237 | replaces the rasterization state only, returns the same builder |
| PipelineBuilders.GraphicsPipelineBuilder.SetScissor | include/inexor/vulkan-renderer/wrapper/pipelines/pipeline_builder.hpp:239-243 | the scissor list becomes exactly the one rectangle, returns the same builder |
| PipelineBuilders.GraphicsPipelineBuilder.SetScissorExtent | include/inexor/vulkan-renderer/wrapper/pipelines/pipeline_builder.hpp:245-248 | the scissor list becomes one rectangle at (0, 0) of the extent's size |
| PipelineBuilders.GraphicsPipelineBuilder.SetTesselationControlPointCount | include/inexor/vulkan-renderer/wrapper/pipelines/pipeline_builder.hpp:250-254 | the tessellation state gets the control-point count, nothing else changes |
| PipelineBuilders.GraphicsPipelineBuilder.SetVertexInputAttributes | include/inexor/vulkan-renderer/wrapper/pipelines/pipeline_builder.hpp:256-262 | replaces the vertex attributes only, returns the same builder |
| PipelineBuilders.GraphicsPipelineBuilder.SetVertexInputBindings | include/inexor/vulkan-renderer/wrapper/pipelines/pipeline_builder.hpp:264-268 | replaces the vertex bindings only, returns the same builder |
| PipelineBuilders.GraphicsPipelineBuilder.SetViewport | include/inexor/vulkan-renderer/wrapper/pipelines/pipeline_builder.hpp:270-274 | the viewport list becomes exactly the one viewport, returns the same builder |
| PipelineBuilders.GraphicsPipelineBuilder.SetViewportExtent | include/inexor/vulkan-renderer/wrapper/pipelines/pipeline_builder.hpp:276-279 | the viewport list becomes one viewport at (0, 0) of the extent's size |
| PipelineBuilders.BuildsFromResetAgree | src/vulkan-renderer/wrapper/pipelines/pipeline_builder.cpp:102-103 | example: two builders in reset state with the same shader stages produce the same create-info, so nothing of a previous build leaks into the next |
| RenderGraphs.RenderGraph.constructor | src/vulkan-renderer/renderer.cpp:79 | a new graph has no resources, stages, stack or physical objects and a builder in reset state |
| RenderGraphs.RenderGraph.AddBuffer | src/vulkan-renderer/renderer.cpp:25 | appends one buffer with no attributes, no data and no pending upload, and returns its index |
| RenderGraphs.RenderGraph.AddTexture | src/vulkan-renderer/renderer.cpp:19 | appends one texture with UNDEFINED format and returns its index |
| RenderGraphs.RenderGraph.AddStage | src/vulkan-renderer/renderer.cpp:33 | appends one empty stage and returns its index |
| RenderGraphs.RenderGraph.SetFormat | src/vulkan-renderer/renderer.cpp:20 | changes only that texture's format |
| RenderGraphs.RenderGraph.UploadData | src/vulkan-renderer/renderer.cpp:26 | sets that buffer's element and data size and flags it for upload; nothing else changes |
| RenderGraphs.RenderGraph.AddVertexAttribute | src/vulkan-renderer/render_graph.cpp:20-26 | appends one attribute whose location is the number of attributes before the call |
| RenderGraphs.RenderGraph.WritesTo | src/vulkan-renderer/render_graph.cpp:28-30 | appends the resource to that stage's writes only |
| RenderGraphs.RenderGraph.ReadsFrom | src/vulkan-renderer/render_graph.cpp:32-34 | appends the resource to that stage's reads only |
| RenderGraphs.RenderGraph.BindBuffer | src/vulkan-renderer/render_graph.cpp:36-38 | emplaces the binding into that stage's map |
| RenderGraphModel.Emplace | src/vulkan-renderer/render_graph.cpp:37 | the key is added; an existing binding is kept, otherwise the new one is stored; other keys are untouched |
| RenderGraphModel.EmplaceFirstWins | src/vulkan-renderer/render_graph.cpp:36-38 | a second bind_buffer for the same buffer changes nothing, so the first binding wins |
| RenderGraphs.RenderGraph.UsesShader | src/vulkan-renderer/render_graph.cpp:40-46 | appends the shader stage to that stage's shaders only |
| RenderGraphs.RenderGraph.SetClearsScreen | src/vulkan-renderer/renderer.cpp:39 | changes only that stage's clear flag |
| RenderGraphs.RenderGraph.SetDepthOptions | src/vulkan-renderer/renderer.cpp:40 | changes only that stage's depth test and depth write flags |
| RenderGraphs.RenderGraph.SetBlendAttachment | src/vulkan-renderer/imgui.cpp:92-102 | changes only that stage's blend attachment |
| RenderGraphs.RenderGraph.AddDescriptorLayout | src/vulkan-renderer/renderer.cpp:50 | appends the layout to that stage's descriptor layouts only |
| RenderGraphs.RenderGraph.AddPushConstantRange | src/vulkan-renderer/imgui.cpp:180 | appends the range to that stage's push-constant ranges only |
| RenderGraphs.RenderGraph.BuildWriters | src/vulkan-renderer/render_graph.cpp:262-267 | the nested loop builds exactly WritersMap(stages) |
| RenderGraphOrder.AddWritesLookup | src/vulkan-renderer/render_graph.cpp:264-266 | one stage's writes add that stage once per occurrence of the resource, at the end of its list |
| RenderGraphOrder.WritersMapIsWriterList | src/vulkan-renderer/render_graph.cpp:262-267 | the writers of a resource are the stages writing it, in registration order |
| RenderGraphOrder.WriterListMembership | src/vulkan-renderer/render_graph.cpp:262-267 | a stage is listed as a writer iff it writes the resource |
| RenderGraphOrder.WritersMembership | src/vulkan-renderer/render_graph.cpp:262-267 | the same iff for the whole writers map |
| RenderGraphOrder.WriterListSorted | src/vulkan-renderer/render_graph.cpp:263-265 | writer lists are in registration order (non-decreasing stage index) |
| RenderGraphs.RenderGraph.Dfs | src/vulkan-renderer/render_graph.cpp:272-279 | the recursive search appends Visit(s) to the existing stack: every writer's visit for every read, then s |
| RenderGraphs.RenderGraph.DfsWriters | src/vulkan-renderer/render_graph.cpp:274-276 | the inner loop appends the visits of all writers of one read resource, in order |
| RenderGraphOrder.FeedsThroughWriters | src/vulkan-renderer/render_graph.cpp:273-274 | x feeds s iff x appears in the writer list of one of s's reads |
| RenderGraphOrder.VisitReaches | src/vulkan-renderer/render_graph.cpp:272-279 | a stage appears in the visit of s iff it reaches s through writers of reads |
| RenderGraphOrder.VisitProducersFirst | src/vulkan-renderer/render_graph.cpp:272-279 | in a visit, every consumer occurrence is preceded by an occurrence of each of its producers |
| RenderGraphOrder.ProducerVisitedBefore | src/vulkan-renderer/render_graph.cpp:273-278 | every producer of s is visited before s is pushed |
| RenderGraphOrder.VisitAllFacts | src/vulkan-renderer/render_graph.cpp:282-284 | the searches from the roots keep producers first and contain exactly the stages the roots reach |
| RenderGraphOrder.Visit | src/vulkan-renderer/render_graph.cpp:272-279 | the search from a stage pushes only stages of the graph and pushes the stage itself last |
| RenderGraphOrder.VisitAll | src/vulkan-renderer/render_graph.cpp:282-284 | the searches from the roots push only stages of the graph |
| RenderGraphOrder.Order | src/vulkan-renderer/render_graph.cpp:269-284 | the stage stack holds only stages of the graph |
| RenderGraphOrder.OrderFacts | src/vulkan-renderer/render_graph.cpp:269-284 | the stage order puts producers first and contains exactly the transitive producers of the target's writers |
| RenderGraphOrder.OrderOfUnwritten | src/vulkan-renderer/render_graph.cpp:282-284 | a target nobody writes schedules nothing |
| RenderGraphOrder.DiamondWriters | src/vulkan-renderer/render_graph.cpp:262-267 | the writers map of the four-stage diamond |
| RenderGraphOrder.DiamondRepeatsSharedProducer | src/vulkan-renderer/render_graph.cpp:269-284 | with no visited set, the diamond's shared producer is scheduled twice: [0, 1, 0, 2, 3] |
| RenderGraphOrder.UnfedPairOrder | src/vulkan-renderer/render_graph.cpp:282-284 | two stages that read only buffers and both write the target are scheduled once each, in registration order |
| RenderGraphOrder.UnfedSingleOrder | src/vulkan-renderer/render_graph.cpp:282-284 | a single root without producers is scheduled once |
| RenderGraphs.RenderGraph.DfsRoot | src/vulkan-renderer/render_graph.cpp:282-284 | one iteration of the roots loop extends the stack by one root's visit |
| RenderGraphs.RenderGraph.ScheduleStages | src/vulkan-renderer/render_graph.cpp:262-284 | appends Order(stages, rank, target) to the existing stack |
| RenderGraphs.RenderGraph.AllocateBuffers | src/vulkan-renderer/render_graph.cpp:296-299 | every buffer gets a fresh physical buffer with no backing buffer |
| RenderGraphModel.PhysicalTextureFor | src/vulkan-renderer/render_graph.cpp:306-323 | a back buffer becomes the swapchain back buffer; any other texture an image in its format, with depth-stencil usage and aspect iff its usage is DEPTH_STENCIL_BUFFER |
| RenderGraphModel.PhysicalTexturesFor | src/vulkan-renderer/render_graph.cpp:303-324 | one physical texture per texture, each with its own new image handle |
| RenderGraphs.RenderGraph.AllocateTextures | src/vulkan-renderer/render_graph.cpp:303-324 | the texture loop builds exactly PhysicalTexturesFor and draws one handle per texture |
| RenderGraphModel.AttachmentFor | src/vulkan-renderer/render_graph.cpp:135-162 | format of the texture, 1 sample, store, stencil don't-care; CLEAR when clearing, LOAD from PRESENT_SRC for a non-clearing back buffer, DONT_CARE otherwise; final layout by usage |
| RenderGraphModel.RenderPassAttachments | src/vulkan-renderer/render_graph.cpp:128-164 | one attachment per written texture, in write order; buffer writes are skipped; references split into colour and depth |
| RenderGraphModel.RenderPassReferences | src/vulkan-renderer/render_graph.cpp:145-161 | a colour (depth) reference (i, layout) exists iff write i is a non-depth (depth) texture with the matching layout; i is the write position |
| RenderGraphModel.RenderPassReferencesOrdered | src/vulkan-renderer/render_graph.cpp:128-164 | every reference index is below the number of writes |
| RenderGraphModel.BufferWriteShiftsReference | src/vulkan-renderer/render_graph.cpp:152 | a buffer write before the back buffer gives one attachment whose reference index is 1, not 0 |
| RenderGraphs.RenderGraph.BuildRenderPass | src/vulkan-renderer/render_graph.cpp:119-189 | the attachment loop and subpass give exactly RenderPassFor(stage) |
| RenderGraphModel.Rebind | src/vulkan-renderer/render_graph.cpp:215-218 | the stage's copies of a buffer's attributes, each with its binding overwritten |
| RenderGraphModel.VertexInputFailureStays | src/vulkan-renderer/render_graph.cpp:214 | once a read has no binding, the vertex input fails with that buffer whatever follows |
| RenderGraphModel.VertexInputFacts | src/vulkan-renderer/render_graph.cpp:200-225 | succeeds iff every non-index buffer read has a binding, and fails naming such a buffer otherwise; bindings are per-vertex and use bound slots |
| RenderGraphs.RenderGraph.BuildVertexInput | src/vulkan-renderer/render_graph.cpp:200-225 | the read loop builds exactly VertexInputFor(stage) |
| RenderGraphModel.StageError | src/vulkan-renderer/render_graph.cpp:214 | a stage fails to build iff its vertex input fails or has no bindings or no attributes |
| RenderGraphModel.FirstErrorStays | src/vulkan-renderer/render_graph.cpp:328-336 | the first stage error on the stack is final |
| RenderGraphModel.FirstErrorFacts | src/vulkan-renderer/render_graph.cpp:328-336 | compile succeeds iff no stacked stage has an error, and otherwise reports the error of one stacked stage |
| RenderGraphs.RenderGraph.BuildGraphicsPipeline | src/vulkan-renderer/render_graph.cpp:227-254 | the pipeline is built from the stage's shaders, vertex input, depth flags with LESS_OR_EQUAL, an RGBA-write blend attachment, and a viewport and scissor over the extent; the builder ends in reset state |
| RenderGraphModel.FramebuffersFor | src/vulkan-renderer/render_graph.cpp:339-365 | no framebuffer without writes; otherwise exactly one per swapchain image |
| RenderGraphModel.FramebufferAttachmentCount | src/vulkan-renderer/render_graph.cpp:341-360 | each framebuffer has one view per written texture: back-buffer copies of the swap view plus the other images' views |
| RenderGraphs.RenderGraph.BuildFramebuffers | src/vulkan-renderer/render_graph.cpp:339-365 | the loops build exactly FramebuffersFor |
| RenderGraphs.RenderGraph.BuildPhysicalStage | src/vulkan-renderer/render_graph.cpp:329-365 | reports StageError of the stage; builds the render pass and layout either way; on success returns them with the pipeline and framebuffers, on failure with no pipeline and no framebuffers |
| RenderGraphModel.StagesBuiltStep | src/vulkan-renderer/render_graph.cpp:328-332 | storing a stack entry's physical stage keeps every earlier entry built |
| RenderGraphs.RenderGraph.BuildStackEntry | src/vulkan-renderer/render_graph.cpp:328-336 | builds one stack entry and stores its physical stage under the stage index even when it fails (a failed one has no pipeline); reports its stage error, or extends the built prefix by one |
| RenderGraphs.RenderGraph.BuildPhysicalStages | src/vulkan-renderer/render_graph.cpp:328-367 | the error is the first stage error on the stack; with none, every stack entry has its physical stage |
| RenderGraphs.RenderGraph.Compile | src/vulkan-renderer/render_graph.cpp:257-368 | appends the stage order to the stack, allocates the buffers and textures, and builds every stacked stage or reports the first error |
| RenderGraphModel.U32 | src/vulkan-renderer/render_graph.cpp:222 | a uint32 conversion gives a value below 2^32, and leaves values that fit unchanged |
| RenderGraphModel.UploadUsage | src/vulkan-renderer/render_graph.cpp:382-383 | a vertex buffer is created with VERTEX usage, anything else with INDEX usage |
| RenderGraphModel.UpdatedBuffers | src/vulkan-renderer/render_graph.cpp:371-390 | each buffer gets its own updated physical buffer |
| RenderGraphModel.ClearedFlags | src/vulkan-renderer/render_graph.cpp:388 | every upload flag is cleared and nothing else changes |
| RenderGraphModel.UploadOncePerFrame | src/vulkan-renderer/render_graph.cpp:372-389 | a flagged buffer gets exactly one new backing buffer of its data size; an unflagged buffer is untouched |
| RenderGraphModel.SecondUpdateChangesNothing | src/vulkan-renderer/render_graph.cpp:372-388 | a second update in the same frame changes nothing, so a buffer is uploaded at most once per frame |
| RenderGraphs.RenderGraph.UpdateDynamicBuffers | src/vulkan-renderer/render_graph.cpp:370-391 | the buffer loop gives exactly UpdatedBuffers and ClearedFlags |
| RenderGraphModel.IndexBinds | src/vulkan-renderer/render_graph.cpp:97-98 | one UINT32 index-buffer bind per handle, in order |
| RenderGraphModel.UploadedReadsFacts | src/vulkan-renderer/render_graph.cpp:86-101 | a handle is bound iff the stage reads a buffer of that usage that has a backing buffer with that handle |
| RenderGraphs.BindReadBuffers | src/vulkan-renderer/render_graph.cpp:86-102 | the read loop binds each uploaded index buffer and collects the uploaded vertex buffers, in read order |
| RenderGraphs.BeginStage | src/vulkan-renderer/render_graph.cpp:75-106 | records the render-pass begin on the image's framebuffer, the index binds and one vertex multi-bind when there are vertex buffers |
| RenderGraphs.EndStage | src/vulkan-renderer/render_graph.cpp:108-116 | records the pipeline bind, the callback's commands, the render-pass end and a full barrier |
| RenderGraphs.RecordStage | src/vulkan-renderer/render_graph.cpp:59-117 | records exactly StageCommands, or nothing when there is no framebuffer for the image |
| RenderGraphs.RenderGraph.RecordCommandBuffer | src/vulkan-renderer/render_graph.cpp:59-117 | the same for a stage of the graph |
| RenderGraphModel.EntryFacts | src/vulkan-renderer/render_graph.cpp:77 | a stack entry can be recorded iff its stage has a framebuffer for the image; its commands then end in a full barrier |
| RenderGraphModel.FrameEntries | src/vulkan-renderer/render_graph.cpp:395-397 | one command sequence per stack entry, each the commands of that entry |
| RenderGraphModel.RecordEntriesStops | src/vulkan-renderer/render_graph.cpp:395-397 | after the first stage that cannot be recorded, the frame records nothing more |
| RenderGraphModel.RecordingByEntries | src/vulkan-renderer/render_graph.cpp:395-397 | recording the entries one by one gives the frame recording |
| RenderGraphs.RecordEntry | src/vulkan-renderer/render_graph.cpp:396 | records one stack entry, or nothing when it cannot be recorded |
| RenderGraphs.RecordStages | src/vulkan-renderer/render_graph.cpp:395-397 | the stack loop records the entries in stack order, stopping at the first failure |
| RenderGraphModel.RecordingCompletes | src/vulkan-renderer/render_graph.cpp:395-397 | the frame completes iff every stacked stage has a framebuffer for the image |
| RenderGraphModel.RecordingEndsInBarrier | src/vulkan-renderer/render_graph.cpp:111-116 | a completed frame has at least two commands per stage and ends in a full barrier |
| RenderGraphs.RenderGraph.Render | src/vulkan-renderer/render_graph.cpp:393-398 | uploads the flagged buffers first, then records the stages in stack order; the log grows by exactly the frame's recording |
| Renderer.IndexedPairVertexInput | src/vulkan-renderer/render_graph.cpp:200-225 | a stage reading an index buffer and a vertex buffer bound at 0 gets one binding at 0 with the element size as stride, plus the buffer's attributes on binding 0 |
| Renderer.MainVertexInput | src/vulkan-renderer/renderer.cpp:28-38 | the main stage's pipeline input is one binding 0 of the octree vertex size, with attributes at locations 0 and 1 on binding 0 |
| Renderer.RendererStagesShape | src/vulkan-renderer/renderer.cpp:33-37 | example: the main stage writes the back and depth buffers and reads the index then vertex buffer; the overlay writes the back buffer and reads its two buffers |
| Renderer.RendererOrder | src/vulkan-renderer/renderer.cpp:94-95 | compiling for the back buffer schedules the main stage (the first root) and then the overlay |
| Renderer.OverlayVertexInputFails | src/vulkan-renderer/imgui.cpp:124-126 | the overlay never binds its vertex buffer, so its vertex input fails on that buffer |
| Renderer.RendererErrors | src/vulkan-renderer/renderer.cpp:94-95 | the main stage builds and the overlay fails with MissingBufferBinding(1, 3) |
| Renderer.RendererCompiles | src/vulkan-renderer/renderer.cpp:93-95 | the renderer's graph is ranked, orders [0, 1] and fails with MissingBufferBinding(1, 3) |
| Renderer.MainGraphOrder | src/vulkan-renderer/renderer.cpp:33-35 | a graph holding only the main stage schedules it once |
| Renderer.MainGraphBuilds | src/vulkan-renderer/renderer.cpp:28-38 | a graph holding only the main stage compiles without error |
| Renderer.VulkanRenderer.constructor | src/vulkan-renderer/renderer.cpp:72-79 | the renderer holds its octree, formats, shaders and descriptors, with no graph or overlay yet, no pending resize and no compile error |
| Renderer.VulkanRenderer.SetupRenderGraph | src/vulkan-renderer/renderer.cpp:18-51 | appends the back and depth buffers, the octree index and vertex buffers, and the main stage |
| Renderer.VulkanRenderer.SetupTextures | src/vulkan-renderer/renderer.cpp:19-23 | appends a back buffer in the swapchain format and a D32_SFLOAT_S8_UINT depth buffer |
| Renderer.VulkanRenderer.SetupBuffers | src/vulkan-renderer/renderer.cpp:25-31 | appends the octree index buffer, then the vertex buffer |
| Renderer.VulkanRenderer.SetupIndexBuffer | src/vulkan-renderer/renderer.cpp:25-26 | appends an index buffer holding the octree indices, flagged for upload |
| Renderer.VulkanRenderer.SetupVertexBuffer | src/vulkan-renderer/renderer.cpp:28-31 | appends a vertex buffer with the position and colour attributes, holding the octree vertices, flagged for upload |
| Renderer.VulkanRenderer.SetupMainStage | src/vulkan-renderer/renderer.cpp:33-50 | appends the main stage with its declarations, shaders and descriptor layout |
| Renderer.VulkanRenderer.DeclareMainStage | src/vulkan-renderer/renderer.cpp:33-40 | the main stage writes back then depth buffer, reads index then vertex buffer, binds the vertex buffer at 0, clears, and tests and writes depth |
| Renderer.VulkanRenderer.AddMainShaders | src/vulkan-renderer/renderer.cpp:46-50 | adds the renderer's shaders in order and its descriptor layout |
| Renderer.VulkanRenderer.MainOnRecord | src/vulkan-renderer/renderer.cpp:41-44 | the main stage binds its descriptor and draws all octree indices |
| Renderer.VulkanRenderer.DeclareGraph | src/vulkan-renderer/renderer.cpp:77-94 | a fresh graph holding the renderer's textures, buffers and both stages, with the overlay's buffers at 2 and 3 and its stage at 1 |
| Renderer.VulkanRenderer.CompileGraph | src/vulkan-renderer/renderer.cpp:95 | compiling with the back buffer as target stacks [0, 1] and fails with MissingBufferBinding(1, 3) |
| Renderer.VulkanRenderer.RecreateSwapchain | src/vulkan-renderer/renderer.cpp:72-96 | a new graph and overlay are declared and compiled for the back buffer |
| Renderer.VulkanRenderer.RenderFrame | src/vulkan-renderer/renderer.cpp:98-111 | on a pending resize, clears the flag, recreates, records nothing and is left with the recreated graph's MissingBufferBinding(1, 3); otherwise, only with no compile error pending (the source's compile throws), renders the graph's frame with the main and overlay callbacks |

## Left out

- Vulkan and VMA object creation (render passes, images, framebuffers, buffers, pipelines, pipeline layouts) and its failure exceptions: each object is an opaque handle drawn from a counter, and creation never fails.
- The newer graph API used by application.cpp and renderers/imgui.cpp (`add_buffer`, `add_texture`, `add_graphics_pass`, `request_update`) is outside this model. Only the logic inside those callbacks is modelled, and an update request is the data it is asked to upload.
- Fences, semaphores, image acquisition, queue submission, present and device-idle waits: ordering across host and GPU is outside the model. The image index is a parameter of `render`.
- Window, GLFW, instance and device bootstrap, TOML file reading, command-line parsing, logging and the memory-budget dump: these are I/O. The window-mode string and the GPU index are parameters.
- Floating-point content (clear values, the push-constant scale, the camera, collision checks, random vertex colours, ImGui style colours): none of it affects the modelled structure. Line width and minimum sample shading are plain constants.
- The ImGui font texture and descriptor creation: external library calls. Descriptor sets and layouts are handle parameters.
- Compute stages: render_graph.cpp builds and records graphics stages only, so the model has only graphics stages.
- Cycle detection: the source has none. Acyclicity (a ranking) is a precondition of the search, rather than an error path, and it is demanded of every stage, even of stages the target does not reach; the source only needs the reachable stages to be acyclic.
- Stage callbacks: `set_on_record` is a function from stage and physical stage to commands, supplied by the caller. The renderer supplies the main and overlay callbacks.
- ImGui's global draw data: a parameter, with `None` for a null pointer.
- Copy construction and assignment: they are deleted in the source, and Dafny classes have neither. Only the move constructor is modelled.
- The builder's `set_culling_mode`, `set_line_width`, `set_multisampling`, `set_wireframe` and `add_default_color_blend_attachment` are not modelled. pipeline_builder.hpp declares them with documentation comments; their definitions are not modelled, and their effects involve floats or VkBool32 mappings that the header leaves open.
- The builder's `set_render_pass` and `set_shaders`, as called in render_graph.cpp: neither is declared in pipeline_builder.hpp. `set_render_pass` has no effect in the model, because `build` always passes a null render pass. `set_shaders` replaces the shader stages.
- The builder's setters: pipeline_builder.hpp declares them with documentation comments; their definitions are not modelled. Each is modelled as its documentation describes: it stores its argument in the matching member, and add_* appends.
- A release build, which compiles out the `assert`s in the builder's `build` (pipeline_builder.cpp:38-40), would go on to build a pipeline with an empty vertex input. The model stops compilation with `EmptyVertexInput` as a debug build does.
- Commands.CommandBuffer.DrawIndexed: the header declares only `draw_indexed(index_count)`, yet imgui.cpp:144 calls it with instance count, first index and vertex offset. The model has one method taking all four, whose last three parameters default to what the one-argument form implies. `push_constant` (imgui.cpp:136 and renderers/imgui.cpp:136) is modelled as `push_constants`.
- ImGuiRenderers.ImGuiBinds: renderers/imgui.cpp:132-136 uses the newer command-buffer interface, whose singular `bind_vertex_buffer`, `bind_descriptor_set` and `push_constant` take a buffer, a set and the pipeline itself. The model records them as command_buffer.hpp's `bind_vertex_buffers` (one buffer), `bind_descriptor_sets` (one set) and `push_constants`. It passes the pipeline's layout as a separate handle, because that interface is not part of this model.
- PipelineBuilders.GraphicsPipelineBuilder.Move: states nothing about the moved-to rasterization state. The source assigns that member to itself, not from the other builder.
- OctreeIndices.OctreeGeometry.GenerateOctreeIndices: the "Octree too big" assert becomes a precondition that the distinct count fits in uint32.
- OctreeIndices.OctreeGeometry.GenerateOctreeIndices: vertices are an abstract type with equality; `OctreeGpuVertex` is not part of this model. The Renderer module assumes a vertex of 24 bytes with position at offset 0 and colour at offset 12.
- ImGuiDraw.RecordDraws: the running vertex offset is an int32. The model requires that the total vertex count fits, instead of modelling signed overflow.
- ImGuiDraw.RecordDraws: the index offset wraps modulo 2^32, as a uint32 does. Draw and index counts are unbounded naturals.
- ImGuiOverlays.ImGuiOverlay.constructor: the stage's vertex input setters (`set_vertex_input_attribute_descriptions` and `set_vertex_input_binding_descriptions`) belong to the stage class of render_graph.hpp, which this model does not cover, and render_graph.cpp never reads them. The overlay's pipeline input therefore comes only from its reads, which is why its compile fails.
- ImGuiOverlays.ImGuiOverlay.OnUpdate: the collected data is kept in the overlay's own sequences. The uploaded buffer records only the element size and count, not the bytes.
- ImGuiRenderers.ImGuiRenderer.UpdateVertexBuffer: an update request is logged as the data requested; the upload it triggers in the newer graph is not modelled.
