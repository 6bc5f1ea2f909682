/** The example renderer: the render graph it declares for the octree (a
    back buffer, a depth buffer, the octree's index and vertex buffers and
    one main stage), the swapchain recreation that rebuilds that graph,
    adds the ImGui overlay and compiles for the back buffer, and the resize
    branch of the frame loop. */
module Renderer {
  import opened Vk
  import opened Wrappers
  import opened Commands
  import opened RenderGraphOrder
  import opened RenderGraphModel
  import opened RenderGraphs
  import opened ImGuiDraw
  import opened ImGuiOverlays
  import opened OctreeIndices

  /** `sizeof(OctreeGpuVertex)` and the `offsetof` of its two members, a
      position and a colour of three 32-bit floats each; `sizeof` of an
      octree index (`std::uint32_t`). */
  const OctreeVertexSize: nat := 24
  const PositionOffset: nat := 0
  const ColorOffset: nat := 12
  const OctreeIndexSize: nat := 4

  /** The two attributes `setup_render_graph` gives the vertex buffer, at
      locations 0 and 1, both on binding 0 until compile rebinds them. */
  function OctreeAttributes(): seq<VertexInputAttribute> {
    [VertexInputAttribute(0, 0, R32G32B32Sfloat, PositionOffset),
     VertexInputAttribute(1, 0, R32G32B32Sfloat, ColorOffset)]
  }

  /** The textures the renderer declares: the back buffer in the swapchain's
      format, then the depth buffer. */
  function RendererTextures(swapchainFormat: Format): seq<TextureResource> {
    [TextureResource("back buffer", BackBuffer, swapchainFormat),
     TextureResource("depth buffer", DepthStencilBuffer, D32SfloatS8Uint)]
  }

  /** The buffers the renderer declares, both with their data staged for
      upload. */
  function OctreeBuffers(indexCount: nat, vertexCount: nat): seq<BufferResource> {
    [BufferResource("index buffer", IndexBuffer, [], OctreeIndexSize, OctreeIndexSize * indexCount, true),
     BufferResource("vertex buffer", VertexBuffer, OctreeAttributes(), OctreeVertexSize,
                    OctreeVertexSize * vertexCount, true)]
  }

  /** The main stage's resources, its vertex buffer's slot and its options,
      as `setup_render_graph` declares them before the shaders. */
  function MainDeclarations(backBuffer: nat, depthBuffer: nat, indexBuffer: nat, vertexBuffer: nat): GraphicsStage
  {
    GraphicsStage("main stage", [TextureRef(backBuffer), TextureRef(depthBuffer)],
                  [BufferRef(indexBuffer), BufferRef(vertexBuffer)], map[vertexBuffer := 0], [], [], [],
                  true, true, true, NewStage("").blendAttachment)
  }

  /** The main stage as `setup_render_graph` declares it. */
  function MainStage(backBuffer: nat, depthBuffer: nat, indexBuffer: nat, vertexBuffer: nat,
                     shaders: seq<ShaderStage>, descriptorLayout: Handle): GraphicsStage
  {
    GraphicsStage("main stage", [TextureRef(backBuffer), TextureRef(depthBuffer)],
                  [BufferRef(indexBuffer), BufferRef(vertexBuffer)], map[vertexBuffer := 0], shaders,
                  [descriptorLayout], [], true, true, true, NewStage("").blendAttachment)
  }

  /** What the main stage's record callback records: its descriptor set,
      then one indexed draw over every octree index. */
  function MainRecording(descriptorSet: Handle, physical: PhysicalGraphicsStage, indexCount: nat): seq<Command> {
    [CmdBindDescriptorSets([descriptorSet], physical.pipelineLayout, BindPointGraphics, 0, []),
     CmdDrawIndexed(indexCount, 1, 0, 0)]
  }

  /** The record callbacks of one frame, by stage: the main stage's and the
      overlay's; no other stage records anything of its own. */
  function FrameCallbacks(mainStage: nat, descriptorSet: Handle, indexCount: nat, overlayStage: nat,
                          overlaySets: seq<Handle>, overlayPushConstants: Handle, drawData: Option<DrawData>)
    : (nat, PhysicalGraphicsStage) -> seq<Command>
  {
    (s: nat, p: PhysicalGraphicsStage) =>
      if s == mainStage then MainRecording(descriptorSet, p, indexCount)
      else if s == overlayStage then OverlayRecording(overlaySets, overlayPushConstants, p, drawData)
      else []
  }

  /** What the ImGui overlay is constructed from. */
  datatype OverlayInputs = OverlayInputs(
    vertexShader: ShaderStage,
    fragmentShader: ShaderStage,
    descriptorSets: seq<Handle>,
    descriptorLayout: Handle,
    pushConstants: Handle,
    pushConstantStage: nat)

  /** The stages of the renderer's graph after `recreate_swapchain`: the main
      stage, then the overlay's, over the back buffer (texture 0), the depth
      buffer (texture 1), the octree buffers (0 and 1) and the overlay's
      buffers (2 and 3). */
  function RendererStages(shaders: seq<ShaderStage>, descriptorLayout: Handle, imgui: OverlayInputs)
    : seq<GraphicsStage>
  {
    [MainStage(0, 1, 0, 1, shaders, descriptorLayout),
     OverlayStage(0, 2, 3, imgui.vertexShader, imgui.fragmentShader, imgui.descriptorLayout, imgui.pushConstantStage)]
  }

  /** The buffers of that graph. */
  function RendererBuffers(indexCount: nat, vertexCount: nat): seq<BufferResource> {
    OctreeBuffers(indexCount, vertexCount)
      + [BufferResource("ImGui", IndexBuffer, [], 0, 0, false), BufferResource("ImGui", VertexBuffer, [], 0, 0, false)]
  }

  // ---------------------------------------------------------------- proofs about the graph

  /** A stage that reads an index buffer and then a vertex buffer bound at
      slot 0 gets one binding at that slot, with the vertex buffer's
      element size as stride, and the vertex buffer's attributes moved to
      that slot. */
  lemma IndexedPairVertexInput(st: GraphicsStage, buffers: seq<BufferResource>, ib: nat, vb: nat)
    requires ib < |buffers| && vb < |buffers|
    requires buffers[ib].usage == IndexBuffer && buffers[vb].usage == VertexBuffer
    requires st.readsFrom == [BufferRef(ib), BufferRef(vb)] && st.bufferBindings == map[vb := 0]
    ensures BuffersIn(st.readsFrom, |buffers|)
    ensures VertexInputFor(st, buffers)
            == Success(VertexInput([VertexInputBinding(0, U32(buffers[vb].elementSize), InputRateVertex)],
                                   Rebind(buffers[vb].vertexAttributes, 0)))
  {
    assert !VertexRead(st, buffers, 0);
    assert VertexInputUpTo(st, buffers, 1) == Success(VertexInput([], []));
    assert VertexRead(st, buffers, 1) && st.readsFrom[1].buffer == vb;
    assert [] + Rebind(buffers[vb].vertexAttributes, 0) == Rebind(buffers[vb].vertexAttributes, 0);
    assert [] + [VertexInputBinding(0, U32(buffers[vb].elementSize), InputRateVertex)]
           == [VertexInputBinding(0, U32(buffers[vb].elementSize), InputRateVertex)];
    assert VertexInputUpTo(st, buffers, 2)
           == Success(VertexInput([VertexInputBinding(0, U32(buffers[vb].elementSize), InputRateVertex)],
                                  Rebind(buffers[vb].vertexAttributes, 0)));
  }

  /** The main stage's vertex input: only the vertex buffer contributes
      (the index buffer is skipped), giving one binding at slot 0 with the
      octree vertex as stride, and both attributes on that binding. */
  lemma MainVertexInput(buffers: seq<BufferResource>, backBuffer: nat, depthBuffer: nat, ib: nat, vb: nat,
                        shaders: seq<ShaderStage>, descriptorLayout: Handle)
    requires ib < |buffers| && vb < |buffers|
    requires buffers[ib].usage == IndexBuffer && buffers[vb].usage == VertexBuffer
    requires buffers[vb].vertexAttributes == OctreeAttributes() && buffers[vb].elementSize == OctreeVertexSize
    ensures var st := MainStage(backBuffer, depthBuffer, ib, vb, shaders, descriptorLayout);
            && BuffersIn(st.readsFrom, |buffers|)
            && VertexInputFor(st, buffers)
               == Success(VertexInput([VertexInputBinding(0, OctreeVertexSize, InputRateVertex)], OctreeAttributes()))
  {
    var st := MainStage(backBuffer, depthBuffer, ib, vb, shaders, descriptorLayout);
    IndexedPairVertexInput(st, buffers, ib, vb);
    assert Rebind(OctreeAttributes(), 0) == OctreeAttributes();
    assert U32(OctreeVertexSize) == OctreeVertexSize;
  }

  /** What the renderer's two stages write and read: both write the back
      buffer, the main stage also the depth buffer, and both read two
      buffers. */
  lemma RendererStagesShape(shaders: seq<ShaderStage>, descriptorLayout: Handle, imgui: OverlayInputs)
    ensures var stages := RendererStages(shaders, descriptorLayout, imgui);
            && |stages| == 2 && WritesOnlyTextures(stages) && ReadsOnlyBuffers(stages)
            && stages[0].writesTo == [TextureRef(0), TextureRef(1)] && stages[1].writesTo == [TextureRef(0)]
            && stages[0].readsFrom == [BufferRef(0), BufferRef(1)] && stages[1].readsFrom == [BufferRef(2), BufferRef(3)]
  {
  }

  /** The renderer's graph is acyclic, and compiling it for the back buffer
      orders the main stage and then the overlay's: both write the back
      buffer, in registration order, and each is visited alone since nobody
      writes what they read. */
  lemma RendererOrder(shaders: seq<ShaderStage>, descriptorLayout: Handle, imgui: OverlayInputs)
    ensures Ranked(RendererStages(shaders, descriptorLayout, imgui), [0, 0])
    ensures Order(RendererStages(shaders, descriptorLayout, imgui), [0, 0], TextureRef(0)) == [0, 1]
  {
    var stages := RendererStages(shaders, descriptorLayout, imgui);
    RendererStagesShape(shaders, descriptorLayout, imgui);
    TwoWritersOf(stages, TextureRef(0), TextureRef(1));
    UnfedPairOrder(stages, [0, 0], TextureRef(0));
  }

  /** The overlay's stage reads its vertex buffer without a binding slot:
      its vertex input fails there. */
  lemma OverlayVertexInputFails(buffers: seq<BufferResource>, backBuffer: nat, ib: nat, vb: nat, imgui: OverlayInputs)
    requires ib < |buffers| && vb < |buffers|
    requires buffers[ib].usage == IndexBuffer && buffers[vb].usage == VertexBuffer
    ensures var st := OverlayStage(backBuffer, ib, vb, imgui.vertexShader, imgui.fragmentShader, imgui.descriptorLayout,
                                   imgui.pushConstantStage);
            && BuffersIn(st.readsFrom, |buffers|)
            && VertexInputFor(st, buffers) == Failure(vb)
  {
    var st := OverlayStage(backBuffer, ib, vb, imgui.vertexShader, imgui.fragmentShader, imgui.descriptorLayout,
                           imgui.pushConstantStage);
    assert !VertexRead(st, buffers, 0);
    assert VertexInputUpTo(st, buffers, 1) == Success(VertexInput([], []));
    assert VertexRead(st, buffers, 1) && vb !in st.bufferBindings;
    assert VertexInputUpTo(st, buffers, 2) == Failure(vb);
  }

  /** In that order the main stage builds and the overlay's stage is the
      first that fails: compile reports the overlay's vertex buffer. */
  lemma RendererErrors(indexCount: nat, vertexCount: nat, shaders: seq<ShaderStage>, descriptorLayout: Handle,
                       imgui: OverlayInputs)
    ensures ReadsValid(RendererStages(shaders, descriptorLayout, imgui), 4)
    ensures StageError(RendererStages(shaders, descriptorLayout, imgui), RendererBuffers(indexCount, vertexCount), 0).None?
    ensures FirstError(RendererStages(shaders, descriptorLayout, imgui), RendererBuffers(indexCount, vertexCount), [0, 1], 2)
            == Some(MissingBufferBinding(1, 3))
  {
    var stages := RendererStages(shaders, descriptorLayout, imgui);
    var buffers := RendererBuffers(indexCount, vertexCount);
    assert |buffers| == 4;
    assert stages[0].readsFrom == [BufferRef(0), BufferRef(1)];
    assert stages[1].readsFrom == [BufferRef(2), BufferRef(3)];
    MainVertexInput(buffers, 0, 1, 0, 1, shaders, descriptorLayout);
    OverlayVertexInputFails(buffers, 0, 2, 3, imgui);
    assert StageError(stages, buffers, 1) == Some(MissingBufferBinding(1, 3));
    assert FirstError(stages, buffers, [0, 1], 1).None?;
  }

  /** What compile needs to know of the renderer's graph: it is acyclic,
      ordered main stage then overlay for the back buffer, and the overlay's
      stage fails at its vertex buffer. */
  lemma RendererCompiles(stages: seq<GraphicsStage>, buffers: seq<BufferResource>, shaders: seq<ShaderStage>,
                         descriptorLayout: Handle, imgui: OverlayInputs, indexCount: nat, vertexCount: nat)
    requires stages == RendererStages(shaders, descriptorLayout, imgui)
    requires buffers == RendererBuffers(indexCount, vertexCount)
    ensures Ranked(stages, [0, 0]) && Order(stages, [0, 0], TextureRef(0)) == [0, 1]
    ensures ReadsValid(stages, |buffers|)
    ensures FirstError(stages, buffers, [0, 1], 2) == Some(MissingBufferBinding(1, 3))
  {
    RendererOrder(shaders, descriptorLayout, imgui);
    RendererErrors(indexCount, vertexCount, shaders, descriptorLayout, imgui);
  }

  /** Without the overlay the graph is the main stage alone: it is acyclic
      and its order is just that stage. */
  lemma MainGraphOrder(shaders: seq<ShaderStage>, descriptorLayout: Handle)
    ensures Ranked([MainStage(0, 1, 0, 1, shaders, descriptorLayout)], [0])
    ensures Order([MainStage(0, 1, 0, 1, shaders, descriptorLayout)], [0], TextureRef(0)) == [0]
  {
    var stages := [MainStage(0, 1, 0, 1, shaders, descriptorLayout)];
    assert WritesOnlyTextures(stages) && ReadsOnlyBuffers(stages);
    UnfedSingleOrder(stages, [0], TextureRef(0), TextureRef(1));
  }

  /** ... and that stage has no error: the main graph compiles. */
  lemma MainGraphBuilds(indexCount: nat, vertexCount: nat, shaders: seq<ShaderStage>, descriptorLayout: Handle)
    ensures ReadsValid([MainStage(0, 1, 0, 1, shaders, descriptorLayout)], 2)
    ensures FirstError([MainStage(0, 1, 0, 1, shaders, descriptorLayout)], OctreeBuffers(indexCount, vertexCount), [0], 1).None?
  {
    var stages := [MainStage(0, 1, 0, 1, shaders, descriptorLayout)];
    var buffers := OctreeBuffers(indexCount, vertexCount);
    MainVertexInput(buffers, 0, 1, 0, 1, shaders, descriptorLayout);
    assert StageError(stages, buffers, 0).None?;
  }

  // ---------------------------------------------------------------- the renderer

  /** The renderer's state: the octree geometry, the inputs it declares the
      graph from, the current graph and overlay, the handles
      `setup_render_graph` keeps, the resize flag and the outcome of the
      last compile (`Some` where compile throws). */
  class VulkanRenderer<V(==,!new)> {
    const octree: OctreeGeometry<V>
    const swapchainFormat: Format
    const shaders: seq<ShaderStage>
    /** `m_descriptors[0]`: its descriptor set and its layout. */
    const descriptorSet: Handle
    const descriptorLayout: Handle
    const imgui: OverlayInputs
    var graph: RenderGraph?
    var overlay: ImGuiOverlay?
    var backBuffer: nat
    var indexBuffer: nat
    var vertexBuffer: nat
    /** The stage the main record callback is attached to. */
    var mainStage: nat
    var windowResized: bool
    var compileError: Option<CompileError>

    constructor (octree: OctreeGeometry<V>, swapchainFormat: Format, shaders: seq<ShaderStage>, descriptorSet: Handle,
                 descriptorLayout: Handle, imgui: OverlayInputs)
      ensures this.octree == octree && this.swapchainFormat == swapchainFormat && this.shaders == shaders
      ensures this.descriptorSet == descriptorSet && this.descriptorLayout == descriptorLayout && this.imgui == imgui
      ensures graph == null && overlay == null && !windowResized && compileError == None
    {
      this.octree, this.swapchainFormat, this.shaders := octree, swapchainFormat, shaders;
      this.descriptorSet, this.descriptorLayout, this.imgui := descriptorSet, descriptorLayout, imgui;
      graph, overlay := null, null;
      backBuffer, indexBuffer, vertexBuffer, mainStage := 0, 0, 0, 0;
      windowResized, compileError := false, None;
    }

    /** setup_render_graph: the two textures, the two buffers and the main
        stage, appended to whatever the graph already holds. */
    method SetupRenderGraph()
      requires graph != null && graph.Valid()
      modifies graph`buffers, graph`textures, graph`stages
      modifies this`backBuffer, this`indexBuffer, this`vertexBuffer, this`mainStage
      ensures graph.Valid()
      ensures backBuffer == |old(graph.textures)| && indexBuffer == |old(graph.buffers)|
      ensures vertexBuffer == indexBuffer + 1 && mainStage == |old(graph.stages)|
      ensures graph.textures == old(graph.textures) + RendererTextures(swapchainFormat)
      ensures graph.buffers == old(graph.buffers) + OctreeBuffers(|octree.indices|, |octree.vertices|)
      ensures graph.stages == old(graph.stages)
                              + [MainStage(backBuffer, backBuffer + 1, indexBuffer, vertexBuffer, shaders, descriptorLayout)]
    {
      SetupTextures();
      SetupBuffers();
      SetupMainStage(backBuffer + 1);
    }

    /** The back buffer in the swapchain's format and the depth buffer. */
    method SetupTextures()
      requires graph != null && graph.Valid()
      modifies graph`textures, this`backBuffer
      ensures graph.Valid() && backBuffer == |old(graph.textures)|
      ensures graph.textures == old(graph.textures) + RendererTextures(swapchainFormat)
    {
      var back := graph.AddTexture("back buffer", BackBuffer);
      graph.SetFormat(back, swapchainFormat);
      var depth := graph.AddTexture("depth buffer", DepthStencilBuffer);
      graph.SetFormat(depth, D32SfloatS8Uint);
      backBuffer := back;
      assert graph.textures[..back] == old(graph.textures);
      assert graph.textures == graph.textures[..back] + RendererTextures(swapchainFormat);
    }

    /** The index buffer with the octree's indices and the vertex buffer with
        its two attributes and the octree's vertices. */
    method SetupBuffers()
      requires graph != null && graph.Valid()
      modifies graph`buffers, this`indexBuffer, this`vertexBuffer
      ensures graph.Valid() && indexBuffer == |old(graph.buffers)| && vertexBuffer == indexBuffer + 1
      ensures graph.buffers == old(graph.buffers) + OctreeBuffers(|octree.indices|, |octree.vertices|)
    {
      var ib := SetupIndexBuffer();
      var vb := SetupVertexBuffer();
      indexBuffer, vertexBuffer := ib, vb;
      assert graph.buffers == old(graph.buffers) + [OctreeBuffers(|octree.indices|, |octree.vertices|)[0]]
                                                 + [OctreeBuffers(|octree.indices|, |octree.vertices|)[1]];
    }

    method SetupIndexBuffer() returns (ib: nat)
      requires graph != null && graph.Valid()
      modifies graph`buffers
      ensures graph.Valid() && ib == |old(graph.buffers)|
      ensures graph.buffers == old(graph.buffers) + [OctreeBuffers(|octree.indices|, |octree.vertices|)[0]]
    {
      ib := graph.AddBuffer("index buffer", IndexBuffer);
      graph.UploadData(ib, OctreeIndexSize, |octree.indices|);
      assert graph.buffers[..ib] == old(graph.buffers);
      assert graph.buffers == graph.buffers[..ib] + [graph.buffers[ib]];
    }

    method SetupVertexBuffer() returns (vb: nat)
      requires graph != null && graph.Valid()
      modifies graph`buffers
      ensures graph.Valid() && vb == |old(graph.buffers)|
      ensures graph.buffers == old(graph.buffers) + [OctreeBuffers(|octree.indices|, |octree.vertices|)[1]]
    {
      vb := graph.AddBuffer("vertex buffer", VertexBuffer);
      graph.AddVertexAttribute(vb, R32G32B32Sfloat, PositionOffset);
      graph.AddVertexAttribute(vb, R32G32B32Sfloat, ColorOffset);
      graph.UploadData(vb, OctreeVertexSize, |octree.vertices|);
      assert U32(0) == 0 && U32(1) == 1;
      assert graph.buffers[vb].vertexAttributes == OctreeAttributes();
      assert graph.buffers[..vb] == old(graph.buffers);
      assert graph.buffers == graph.buffers[..vb] + [graph.buffers[vb]];
    }

    /** The main stage: its writes and reads, the vertex buffer's slot, its
        options, every shader in order and the descriptor layout. */
    method SetupMainStage(depthBuffer: nat)
      requires graph != null && graph.Valid()
      requires backBuffer < |graph.textures| && depthBuffer < |graph.textures|
      requires indexBuffer < |graph.buffers| && vertexBuffer < |graph.buffers|
      modifies graph`stages, this`mainStage
      ensures graph.Valid() && mainStage == |old(graph.stages)|
      ensures graph.stages == old(graph.stages)
                              + [MainStage(backBuffer, depthBuffer, indexBuffer, vertexBuffer, shaders, descriptorLayout)]
    {
      var s := DeclareMainStage(depthBuffer);
      AddMainShaders(s);
      mainStage := s;
      assert graph.stages[..s] == old(graph.stages);
      assert graph.stages == graph.stages[..s] + [graph.stages[s]];
    }

    /** The first half of the main stage's declaration, up to its options. */
    method DeclareMainStage(depthBuffer: nat) returns (s: nat)
      requires graph != null && graph.Valid()
      requires backBuffer < |graph.textures| && depthBuffer < |graph.textures|
      requires indexBuffer < |graph.buffers| && vertexBuffer < |graph.buffers|
      modifies graph`stages
      ensures graph.Valid() && s == |old(graph.stages)|
      ensures graph.stages == old(graph.stages) + [MainDeclarations(backBuffer, depthBuffer, indexBuffer, vertexBuffer)]
    {
      s := graph.AddStage("main stage");
      graph.WritesTo(s, TextureRef(backBuffer));
      graph.WritesTo(s, TextureRef(depthBuffer));
      graph.ReadsFrom(s, BufferRef(indexBuffer));
      graph.ReadsFrom(s, BufferRef(vertexBuffer));
      graph.BindBuffer(s, vertexBuffer, 0);
      graph.SetClearsScreen(s, true);
      graph.SetDepthOptions(s, true, true);
      assert graph.stages[s] == MainDeclarations(backBuffer, depthBuffer, indexBuffer, vertexBuffer);
      assert graph.stages[..s] == old(graph.stages);
      assert graph.stages == graph.stages[..s] + [graph.stages[s]];
    }

    /** The second half: every shader in order, then the descriptor layout. */
    method AddMainShaders(s: nat)
      requires graph != null && graph.Valid() && s < |graph.stages|
      requires graph.stages[s].shaders == [] && graph.stages[s].descriptorLayouts == []
      modifies graph`stages
      ensures graph.Valid()
      ensures graph.stages == old(graph.stages)[s := old(graph.stages)[s].(shaders := shaders,
                                                                            descriptorLayouts := [descriptorLayout])]
    {
      ghost var declared := graph.stages;
      var i := 0;
      while i < |shaders|
        modifies graph`stages
        invariant 0 <= i <= |shaders| && graph.Valid()
        invariant graph.stages == declared[s := declared[s].(shaders := shaders[..i])]
      {
        graph.UsesShader(s, shaders[i]);
        assert shaders[..i + 1] == shaders[..i] + [shaders[i]];
        i := i + 1;
      }
      assert shaders[..i] == shaders;
      graph.AddDescriptorLayout(s, descriptorLayout);
      assert graph.stages[s] == declared[s].(shaders := shaders, descriptorLayouts := [descriptorLayout]);
    }

    /** The main stage's record callback. */
    method MainOnRecord(physical: PhysicalGraphicsStage, cb: CommandBuffer)
      modifies cb
      ensures cb.log == old(cb.log) + MainRecording(descriptorSet, physical, |octree.indices|)
    {
      var c := cb.BindDescriptorSets([descriptorSet], physical.pipelineLayout);
      cb.DrawIndexed(|octree.indices|);
    }

    /** recreate_swapchain, for the recreated swapchain's image count and
        extent: a new graph, the renderer's declarations, a new overlay
        drawing into the back buffer, and compile for the back buffer. The
        main stage is the first writer of the back buffer and the overlay's
        stage the second, and compile stops at the overlay's vertex buffer,
        which has no binding slot. */
    method RecreateSwapchain(swapchainImageCount: nat, extent: Extent2D)
      modifies this`graph, this`overlay, this`backBuffer, this`indexBuffer, this`vertexBuffer, this`mainStage
      modifies this`compileError
      ensures graph != null && fresh(graph) && overlay != null && fresh(overlay)
      ensures graph.swapchainImageCount == swapchainImageCount && graph.extent == extent
      ensures backBuffer == 0 && indexBuffer == 0 && vertexBuffer == 1 && mainStage == 0
      ensures overlay.graph == graph && overlay.indexBuffer == 2 && overlay.vertexBuffer == 3 && overlay.stage == 1
      ensures graph.textures == RendererTextures(swapchainFormat)
      ensures graph.buffers == RendererBuffers(|octree.indices|, |octree.vertices|)
      ensures graph.stages == RendererStages(shaders, descriptorLayout, imgui)
      ensures graph.stageStack == [mainStage, overlay.stage]
      ensures compileError == Some(MissingBufferBinding(overlay.stage, overlay.vertexBuffer))
    {
      DeclareGraph(swapchainImageCount, extent);
      CompileGraph();
    }

    /** The first half of recreate_swapchain: a new graph holding the
        renderer's declarations and then the overlay's. */
    method DeclareGraph(swapchainImageCount: nat, extent: Extent2D)
      modifies this`graph, this`overlay, this`backBuffer, this`indexBuffer, this`vertexBuffer, this`mainStage
      ensures graph != null && fresh(graph) && fresh(graph.builder) && overlay != null && fresh(overlay)
      ensures graph.Valid() && graph.stageStack == []
      ensures graph.swapchainImageCount == swapchainImageCount && graph.extent == extent
      ensures backBuffer == 0 && indexBuffer == 0 && vertexBuffer == 1 && mainStage == 0
      ensures overlay.graph == graph && overlay.indexBuffer == 2 && overlay.vertexBuffer == 3 && overlay.stage == 1
      ensures graph.textures == RendererTextures(swapchainFormat)
      ensures graph.buffers == RendererBuffers(|octree.indices|, |octree.vertices|)
      ensures graph.stages == RendererStages(shaders, descriptorLayout, imgui)
    {
      var g := new RenderGraph(swapchainImageCount, extent);
      graph := g;
      SetupRenderGraph();
      var o := new ImGuiOverlay(g, backBuffer, imgui.vertexShader, imgui.fragmentShader, imgui.descriptorSets,
                                imgui.descriptorLayout, imgui.pushConstants, imgui.pushConstantStage);
      overlay := o;
      assert g.stages == RendererStages(shaders, descriptorLayout, imgui);
      assert g.buffers == RendererBuffers(|octree.indices|, |octree.vertices|);
    }

    /** The compile at the end of recreate_swapchain, for the graph the
        renderer and the overlay declared. */
    method CompileGraph()
      requires graph != null && graph.Valid() && graph.stageStack == [] && backBuffer == 0
      requires graph.stages == RendererStages(shaders, descriptorLayout, imgui)
      requires graph.buffers == RendererBuffers(|octree.indices|, |octree.vertices|)
      modifies this`compileError, graph`stageStack, graph`physicalBuffers, graph`physicalTextures
      modifies graph`physicalStages, graph`nextHandle, graph.builder
      ensures graph.stageStack == [0, 1]
      ensures compileError == Some(MissingBufferBinding(1, 3))
    {
      RendererCompiles(graph.stages, graph.buffers, shaders, descriptorLayout, imgui, |octree.indices|,
                       |octree.vertices|);
      compileError := graph.Compile(TextureRef(backBuffer), [0, 0]);
    }

    /** render_frame, for the image the swapchain hands out. A pending
        resize clears the flag, recreates the swapchain and renders nothing;
        otherwise the graph renders the frame with the main and overlay
        record callbacks. A compile that failed threw out of
        recreate_swapchain, so no frame is rendered after it: the render
        branch demands that no compile error is pending. */
    method RenderFrame(imageIndex: nat, cb: CommandBuffer, drawData: Option<DrawData>, swapchainImageCount: nat,
                       extent: Extent2D) returns (rendered: bool)
      requires graph != null && overlay != null
      requires !windowResized ==> compileError.None?
      requires !windowResized ==>
                 Recordable(graph.stages, graph.buffers, graph.physicalBuffers, graph.physicalStages, graph.stageStack)
      modifies this`windowResized, this`graph, this`overlay, this`backBuffer, this`indexBuffer, this`vertexBuffer
      modifies this`mainStage, this`compileError, graph`buffers, graph`physicalBuffers, graph`nextHandle, cb
      ensures old(windowResized) ==>
                && !windowResized && !rendered && cb.log == old(cb.log)
                && graph != null && fresh(graph) && graph.extent == extent
                && graph.stages == RendererStages(shaders, descriptorLayout, imgui) && graph.stageStack == [0, 1]
                && compileError == Some(MissingBufferBinding(1, 3))
      ensures !old(windowResized) ==>
                && graph == old(graph) && overlay == old(overlay) && !windowResized
                && graph.buffers == ClearedFlags(old(graph.buffers))
                && Recordable(graph.stages, graph.buffers, graph.physicalBuffers, graph.physicalStages, graph.stageStack)
                && var rec := Recording(graph.stages, graph.buffers, graph.physicalBuffers, graph.physicalStages,
                                        graph.stageStack, imageIndex, graph.extent,
                                        FrameCallbacks(mainStage, descriptorSet, |octree.indices|, overlay.stage,
                                                       overlay.descriptorSets, overlay.pushConstants, drawData),
                                        |graph.stageStack|);
                   cb.log == old(cb.log) + rec.commands && rendered == rec.completed
    {
      if windowResized {
        windowResized := false;
        RecreateSwapchain(swapchainImageCount, extent);
        return false;
      }
      var callbacks := FrameCallbacks(mainStage, descriptorSet, |octree.indices|, overlay.stage,
                                      overlay.descriptorSets, overlay.pushConstants, drawData);
      rendered := graph.Render(imageIndex, cb, callbacks);
    }
  }
}
