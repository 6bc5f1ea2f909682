/** The render graph object: the declaration calls that fill it, `compile`,
    which orders the stages and creates their physical counterparts, and
    `render`, which uploads the dirty buffers and records every stage. Each
    method is proved against the functions of `RenderGraphModel` and
    `RenderGraphOrder`. Vulkan objects are opaque handles drawn from a
    counter. */
module RenderGraphs {
  import opened Vk
  import opened Wrappers
  import opened RenderGraphOrder
  import opened PipelineBuilders
  import opened Commands
  import opened RenderGraphModel

  class RenderGraph {
    var buffers: seq<BufferResource>
    var textures: seq<TextureResource>
    var stages: seq<GraphicsStage>
    /** `m_stage_stack`: the stages in recording order. */
    var stageStack: seq<nat>
    /** The `m_physical` of every buffer and texture, by index. */
    var physicalBuffers: seq<PhysicalBuffer>
    var physicalTextures: seq<PhysicalTexture>
    /** The `m_physical` of every stage compile has built. */
    var physicalStages: map<nat, PhysicalGraphicsStage>
    /** The next unused Vulkan handle. */
    var nextHandle: Handle
    const swapchainImageCount: nat
    const extent: Extent2D
    const builder: GraphicsPipelineBuilder

    /** Every resource a stage mentions exists, every stack entry is a stage
        and the pipeline builder is in reset state between uses. */
    ghost predicate Valid()
      reads this, builder
    {
      && nextHandle > NullHandle
      && StagesValid(stages, |buffers|, |textures|)
      && (forall k :: 0 <= k < |stageStack| ==> stageStack[k] < |stages|)
      && builder.IsReset()
    }

    constructor (swapchainImageCount: nat, extent: Extent2D)
      ensures Valid() && fresh(builder)
      ensures buffers == [] && textures == [] && stages == [] && stageStack == []
      ensures physicalBuffers == [] && physicalTextures == [] && physicalStages == map[]
      ensures this.swapchainImageCount == swapchainImageCount && this.extent == extent
    {
      this.swapchainImageCount := swapchainImageCount;
      this.extent := extent;
      builder := new GraphicsPipelineBuilder();
      buffers, textures, stages, stageStack := [], [], [], [];
      physicalBuffers, physicalTextures, physicalStages := [], [], map[];
      nextHandle := 1;
    }

    /** Hands out a handle no Vulkan object has yet. */
    method NewHandle() returns (h: Handle)
      modifies this`nextHandle
      ensures h == old(nextHandle) && nextHandle == h + 1
    {
      h := nextHandle;
      nextHandle := nextHandle + 1;
    }

    // ------------------------------------------------------------ declaration

    method AddBuffer(name: string, usage: BufferUsage) returns (b: nat)
      requires Valid()
      modifies this`buffers
      ensures Valid()
      ensures b == |old(buffers)| && buffers == old(buffers) + [BufferResource(name, usage, [], 0, 0, false)]
    {
      b := |buffers|;
      buffers := buffers + [BufferResource(name, usage, [], 0, 0, false)];
    }

    method AddTexture(name: string, usage: TextureUsage) returns (t: nat)
      requires Valid()
      modifies this`textures
      ensures Valid()
      ensures t == |old(textures)| && textures == old(textures) + [TextureResource(name, usage, Undefined)]
    {
      t := |textures|;
      textures := textures + [TextureResource(name, usage, Undefined)];
    }

    method AddStage(name: string) returns (s: nat)
      requires Valid()
      modifies this`stages
      ensures Valid()
      ensures s == |old(stages)| && stages == old(stages) + [NewStage(name)]
    {
      s := |stages|;
      stages := stages + [NewStage(name)];
    }

    method SetFormat(t: nat, format: Format)
      requires Valid() && t < |textures|
      modifies this`textures
      ensures Valid()
      ensures textures == old(textures)[t := old(textures)[t].(format := format)]
    {
      textures := textures[t := textures[t].(format := format)];
    }

    /** Stages `count` elements of `elementSize` bytes for the next upload. */
    method UploadData(b: nat, elementSize: nat, count: nat)
      requires Valid() && b < |buffers|
      modifies this`buffers
      ensures Valid()
      ensures buffers == old(buffers)[b := old(buffers)[b].(elementSize := elementSize, dataSize := elementSize * count,
                                                            dataUploadNeeded := true)]
    {
      buffers := buffers[b := buffers[b].(elementSize := elementSize, dataSize := elementSize * count,
                                          dataUploadNeeded := true)];
    }

    /** The new attribute's location is the number of attributes before it;
        its binding is left zero. */
    method AddVertexAttribute(b: nat, format: Format, offset: nat)
      requires Valid() && b < |buffers|
      modifies this`buffers
      ensures Valid()
      ensures var attrs := old(buffers)[b].vertexAttributes;
              buffers == old(buffers)[b := old(buffers)[b].(vertexAttributes :=
                                            attrs + [VertexInputAttribute(U32(|attrs|), 0, format, offset)])]
    {
      var attrs := buffers[b].vertexAttributes;
      buffers := buffers[b := buffers[b].(vertexAttributes :=
                                          attrs + [VertexInputAttribute(U32(|attrs|), 0, format, offset)])];
    }

    method WritesTo(s: nat, r: ResourceRef)
      requires Valid() && s < |stages|
      requires if r.BufferRef? then r.buffer < |buffers| else r.texture < |textures|
      modifies this`stages
      ensures Valid()
      ensures stages == old(stages)[s := old(stages)[s].(writesTo := old(stages)[s].writesTo + [r])]
    {
      stages := stages[s := stages[s].(writesTo := stages[s].writesTo + [r])];
    }

    method ReadsFrom(s: nat, r: ResourceRef)
      requires Valid() && s < |stages|
      requires if r.BufferRef? then r.buffer < |buffers| else r.texture < |textures|
      modifies this`stages
      ensures Valid()
      ensures stages == old(stages)[s := old(stages)[s].(readsFrom := old(stages)[s].readsFrom + [r])]
    {
      stages := stages[s := stages[s].(readsFrom := stages[s].readsFrom + [r])];
    }

    /** Records the binding slot of a buffer; a buffer that already has one
        keeps it. */
    method BindBuffer(s: nat, b: nat, binding: nat)
      requires Valid() && s < |stages| && b < |buffers|
      modifies this`stages
      ensures Valid()
      ensures stages == old(stages)[s := old(stages)[s].(bufferBindings := Emplace(old(stages)[s].bufferBindings, b, binding))]
    {
      stages := stages[s := stages[s].(bufferBindings := Emplace(stages[s].bufferBindings, b, binding))];
    }

    method UsesShader(s: nat, shader: ShaderStage)
      requires Valid() && s < |stages|
      modifies this`stages
      ensures Valid()
      ensures stages == old(stages)[s := old(stages)[s].(shaders := old(stages)[s].shaders + [shader])]
    {
      stages := stages[s := stages[s].(shaders := stages[s].shaders + [shader])];
    }

    method SetClearsScreen(s: nat, clears: bool)
      requires Valid() && s < |stages|
      modifies this`stages
      ensures Valid()
      ensures stages == old(stages)[s := old(stages)[s].(clearsScreen := clears)]
    {
      stages := stages[s := stages[s].(clearsScreen := clears)];
    }

    method SetDepthOptions(s: nat, depthTest: bool, depthWrite: bool)
      requires Valid() && s < |stages|
      modifies this`stages
      ensures Valid()
      ensures stages == old(stages)[s := old(stages)[s].(depthTest := depthTest, depthWrite := depthWrite)]
    {
      stages := stages[s := stages[s].(depthTest := depthTest, depthWrite := depthWrite)];
    }

    method SetBlendAttachment(s: nat, blend: ColorBlendAttachment)
      requires Valid() && s < |stages|
      modifies this`stages
      ensures Valid()
      ensures stages == old(stages)[s := old(stages)[s].(blendAttachment := blend)]
    {
      stages := stages[s := stages[s].(blendAttachment := blend)];
    }

    method AddDescriptorLayout(s: nat, layout: Handle)
      requires Valid() && s < |stages|
      modifies this`stages
      ensures Valid()
      ensures stages == old(stages)[s := old(stages)[s].(descriptorLayouts := old(stages)[s].descriptorLayouts + [layout])]
    {
      stages := stages[s := stages[s].(descriptorLayouts := stages[s].descriptorLayouts + [layout])];
    }

    method AddPushConstantRange(s: nat, range: PushConstantRange)
      requires Valid() && s < |stages|
      modifies this`stages
      ensures Valid()
      ensures stages == old(stages)[s := old(stages)[s].(pushConstantRanges := old(stages)[s].pushConstantRanges + [range])]
    {
      stages := stages[s := stages[s].(pushConstantRanges := stages[s].pushConstantRanges + [range])];
    }

    // ------------------------------------------------------------ compile

    /** The helper map from a resource to the stages writing it. */
    method BuildWriters() returns (w: Writers)
      ensures w == WritersMap(stages)
    {
      w := map[];
      var i := 0;
      while i < |stages|
        invariant 0 <= i <= |stages|
        invariant w == WritersUpTo(stages, i)
      {
        var ws := stages[i].writesTo;
        var j := 0;
        while j < |ws|
          invariant 0 <= j <= |ws|
          invariant w == AddWrites(WritersUpTo(stages, i), i, ws[..j])
        {
          var r := ws[j];
          w := w[r := Lookup(w, r) + [i]];
          j := j + 1;
          assert ws[..j][..j - 1] == ws[..j - 1];
        }
        assert ws[..j] == ws;
        i := i + 1;
      }
    }

    /** The post-order search from stage `s`, without a visited set: the
        writers of every resource it reads, then `s` itself. */
    method Dfs(w: Writers, s: nat, ghost rank: seq<nat>)
      requires s < |stages| && RankedWriters(w, stages, rank)
      modifies this`stageStack
      ensures stageStack == old(stageStack) + Visit(w, stages, rank, s)
      decreases rank[s], 1
    {
      var readsFrom := stages[s].readsFrom;
      var i := 0;
      while i < |readsFrom|
        invariant 0 <= i <= |readsFrom|
        invariant stageStack == old(stageStack) + VisitReads(w, stages, rank, s, i)
      {
        assert readsFrom[i] in stages[s].readsFrom;
        DfsWriters(w, s, readsFrom[i], rank);
        i := i + 1;
      }
      stageStack := stageStack + [s];
    }

    /** The inner loop of the search: every writer of resource `r`, which
        stage `s` reads, in writer order. */
    method DfsWriters(w: Writers, s: nat, r: ResourceRef, ghost rank: seq<nat>)
      requires s < |stages| && r in stages[s].readsFrom && RankedWriters(w, stages, rank)
      modifies this`stageStack
      ensures stageStack == old(stageStack) + VisitWriters(w, stages, rank, s, r, |Lookup(w, r)|)
      decreases rank[s], 0
    {
      var writers := Lookup(w, r);
      var j := 0;
      while j < |writers|
        invariant 0 <= j <= |writers|
        invariant stageStack == old(stageStack) + VisitWriters(w, stages, rank, s, r, j)
      {
        assert writers[j] in Lookup(w, r);
        Dfs(w, writers[j], rank);
        j := j + 1;
      }
    }

    /** Every buffer gets a fresh physical buffer with no backing buffer yet. */
    method AllocateBuffers()
      modifies this`physicalBuffers
      ensures physicalBuffers == Repeat(FreshPhysicalBuffer, |buffers|)
    {
      var ps: seq<PhysicalBuffer> := [];
      var i := 0;
      while i < |buffers|
        invariant 0 <= i <= |buffers|
        invariant ps == Repeat(FreshPhysicalBuffer, i)
      {
        ps := ps + [FreshPhysicalBuffer];
        i := i + 1;
      }
      physicalBuffers := ps;
    }

    /** The back buffer maps onto the swapchain, every other texture gets an
        image; texture `i` takes the `i`-th handle from the counter. */
    method AllocateTextures()
      modifies this`physicalTextures, this`nextHandle
      ensures physicalTextures == PhysicalTexturesFor(textures, old(nextHandle))
      ensures nextHandle == old(nextHandle) + |textures|
    {
      var ps: seq<PhysicalTexture> := [];
      var i := 0;
      while i < |textures|
        invariant 0 <= i <= |textures|
        invariant nextHandle == old(nextHandle) + i
        invariant |ps| == i && forall k :: 0 <= k < i ==> ps[k] == PhysicalTextureFor(textures[k], old(nextHandle) + k)
      {
        var h := NewHandle();
        ps := ps + [PhysicalTextureFor(textures[i], h)];
        i := i + 1;
      }
      physicalTextures := ps;
    }

    /** The attachment loop of build_render_pass and the create-info it feeds. */
    method BuildRenderPass(s: nat) returns (info: RenderPassInfo)
      requires s < |stages| && TexturesIn(stages[s].writesTo, |textures|)
      ensures info == RenderPassFor(stages[s], textures)
    {
      var st := stages[s];
      var attachments: seq<AttachmentDescription> := [];
      var colourRefs: seq<AttachmentReference> := [];
      var depthRefs: seq<AttachmentReference> := [];
      var i := 0;
      while i < |st.writesTo|
        invariant 0 <= i <= |st.writesTo|
        invariant RenderPassDesc(attachments, colourRefs, depthRefs) == RenderPassUpTo(st.writesTo, textures, st.clearsScreen, i)
      {
        var r := st.writesTo[i];
        if r.TextureRef? {
          var texture := textures[r.texture];
          var attachment := AttachmentFor(texture, st.clearsScreen);
          if texture.usage == DepthStencilBuffer {
            depthRefs := depthRefs + [AttachmentReference(i, DepthStencilAttachmentOptimal)];
          } else {
            colourRefs := colourRefs + [AttachmentReference(i, ColorAttachmentOptimal)];
          }
          attachments := attachments + [attachment];
        }
        i := i + 1;
      }
      info := RenderPassInfo(|attachments|, attachments, |colourRefs|, colourRefs,
                             if depthRefs == [] then None else Some(depthRefs[0]), 1, 1);
    }

    /** The binding loop of build_graphics_pipeline; a vertex buffer read
        without a binding slot fails where `.at()` throws. */
    method BuildVertexInput(s: nat) returns (r: Result<VertexInput, nat>)
      requires s < |stages| && BuffersIn(stages[s].readsFrom, |buffers|)
      ensures r == VertexInputFor(stages[s], buffers)
    {
      var st := stages[s];
      var bindings: seq<VertexInputBinding> := [];
      var attributes: seq<VertexInputAttribute> := [];
      var i := 0;
      while i < |st.readsFrom|
        invariant 0 <= i <= |st.readsFrom|
        invariant VertexInputUpTo(st, buffers, i) == Success(VertexInput(bindings, attributes))
      {
        var res := st.readsFrom[i];
        if res.BufferRef? && buffers[res.buffer].usage != IndexBuffer {
          var buffer := buffers[res.buffer];
          if res.buffer !in st.bufferBindings {
            assert VertexInputUpTo(st, buffers, i + 1) == Failure(res.buffer);
            VertexInputFailureStays(st, buffers, i + 1, |st.readsFrom|);
            return Failure(res.buffer);
          }
          var binding := st.bufferBindings[res.buffer];
          var attrs := buffer.vertexAttributes;
          var before := attributes;
          var j := 0;
          while j < |attrs|
            invariant 0 <= j <= |attrs|
            invariant attributes == before + Rebind(attrs[..j], binding)
          {
            attributes := attributes + [attrs[j].(binding := binding)];
            j := j + 1;
            assert attrs[..j][..j - 1] == attrs[..j - 1];
          }
          assert attrs[..j] == attrs;
          bindings := bindings + [VertexInputBinding(binding, U32(buffer.elementSize), InputRateVertex)];
        }
        i := i + 1;
      }
      r := Success(VertexInput(bindings, attributes));
    }

    /** build_graphics_pipeline's builder calls: the setters, build() and the
        reset after it. */
    method BuildGraphicsPipeline(s: nat, vi: VertexInput, layout: Handle) returns (pipeline: GraphicsPipeline)
      requires s < |stages| && builder.IsReset()
      requires vi.bindings != [] && vi.attributes != [] && layout != NullHandle
      modifies builder
      ensures builder.IsReset()
      ensures pipeline == GraphicsPipeline(PipelineName, PipelineCreateInfoFor(stages[s], vi, layout, extent))
    {
      var st := stages[s];
      var blend := st.blendAttachment.(colorWriteMask := AllComponents);
      var b := builder.SetColorBlend(ColorBlendState(1, [blend]));
      b := b.SetDepthStencil(DepthStencilState(st.depthTest, st.depthWrite, CompareLessOrEqual));
      b := b.SetPipelineLayout(layout);
      b := b.SetScissorExtent(extent);
      b := b.SetShaders(st.shaders);
      b := b.SetVertexInputAttributes(vi.attributes);
      b := b.SetVertexInputBindings(vi.bindings);
      b := b.SetViewportExtent(extent);
      pipeline := b.Build(PipelineName);
      builder.Reset();
    }

    /** One framebuffer per swapchain image for a stage that writes anything:
        the image's view once per back-buffer write, then the views of the
        written images. */
    method BuildFramebuffers(s: nat, renderPass: Handle) returns (fbs: seq<Framebuffer>)
      requires s < |stages| && TexturesIn(stages[s].writesTo, |physicalTextures|)
      ensures fbs == FramebuffersFor(renderPass, stages[s].writesTo, physicalTextures, swapchainImageCount)
    {
      var writes := stages[s].writesTo;
      fbs := [];
      if writes == [] {
        return;
      }
      var backBuffers := 0;
      var images: seq<ImageView> := [];
      var i := 0;
      while i < |writes|
        invariant 0 <= i <= |writes|
        invariant backBuffers == BackBufferWrites(writes, physicalTextures, i)
        invariant images == ImageViewsWritten(writes, physicalTextures, i)
      {
        var r := writes[i];
        if r.TextureRef? {
          var physical := physicalTextures[r.texture];
          if physical.PhysicalBackBuffer? {
            backBuffers := backBuffers + 1;
          } else {
            images := images + [ImageViewOf(physical.image)];
          }
        }
        i := i + 1;
      }
      var n := 0;
      while n < swapchainImageCount
        invariant 0 <= n <= swapchainImageCount
        invariant |fbs| == n && forall k :: 0 <= k < n ==> fbs[k] == FramebufferFor(renderPass, writes, physicalTextures, k)
      {
        var imageViews := Repeat(SwapchainImageView(n), backBuffers);
        var j := 0;
        while j < |images|
          invariant 0 <= j <= |images|
          invariant imageViews == Repeat(SwapchainImageView(n), backBuffers) + images[..j]
        {
          imageViews := imageViews + [images[j]];
          j := j + 1;
          assert images[..j] == images[..j - 1] + [images[j - 1]];
        }
        assert images[..j] == images;
        fbs := fbs + [Framebuffer(renderPass, imageViews)];
        n := n + 1;
      }
    }

    /** The physical stage compile builds for stage `s`: the render pass, the
        pipeline layout, the pipeline and the framebuffers; or why the
        pipeline cannot be built, together with what was built before that:
        the render pass and the layout, with no pipeline and no framebuffers. */
    method BuildPhysicalStage(s: nat) returns (err: Option<CompileError>, p: PhysicalGraphicsStage)
      requires Valid() && s < |stages| && |physicalTextures| == |textures|
      modifies this`nextHandle, builder
      ensures Valid()
      ensures err == StageError(stages, buffers, s)
      ensures p.renderPass != NullHandle && p.pipelineLayout != NullHandle
      ensures p.renderPassInfo == RenderPassFor(stages[s], textures)
      ensures err.None? ==>
        PhysicalStageFor(p, stages[s], buffers, textures, physicalTextures, swapchainImageCount, extent)
      ensures err.Some? ==> p.pipelineHandle == NullHandle && p.framebuffers == []
    {
      var st := stages[s];
      assert StageValid(st, |buffers|, |textures|);
      var renderPass := NewHandle();
      var info := BuildRenderPass(s);
      var layout := NewHandle();
      var vi := BuildVertexInput(s);
      p := PhysicalGraphicsStage(renderPass, info, layout, PipelineLayoutDesc(st.descriptorLayouts, st.pushConstantRanges),
                                 NullHandle, GraphicsPipeline("", PipelineCreateInfoFor(st, VertexInput([], []), layout, extent)),
                                 []);
      if vi.Failure? {
        return Some(MissingBufferBinding(s, vi.error)), p;
      }
      if vi.value.bindings == [] || vi.value.attributes == [] {
        return Some(EmptyVertexInput(s)), p;
      }
      var pipeline := BuildGraphicsPipeline(s, vi.value, layout);
      var pipelineHandle := NewHandle();
      var fbs := BuildFramebuffers(s, renderPass);
      err := None;
      p := p.(pipelineHandle := pipelineHandle, pipeline := pipeline, framebuffers := fbs);
    }

    /** The writers map and the search from every writer of `target`, in
        registration order, appended to the stage stack. */
    method ScheduleStages(target: ResourceRef, ghost rank: seq<nat>)
      requires Ranked(stages, rank)
      modifies this`stageStack
      ensures stageStack == old(stageStack) + Order(stages, rank, target)
    {
      var w := BuildWriters();
      RankedWritersMap(stages, rank);
      var roots := Lookup(w, target);
      assert forall i :: 0 <= i < |roots| ==> roots[i] < |stages| by {
        forall i | 0 <= i < |roots| ensures roots[i] < |stages| { assert roots[i] in roots; }
      }
      var i := 0;
      while i < |roots|
        invariant 0 <= i <= |roots|
        invariant stageStack == old(stageStack) + VisitAll(w, stages, rank, roots, i)
      {
        DfsRoot(w, roots, i, rank, old(stageStack));
        i := i + 1;
      }
      assert Order(stages, rank, target) == VisitAll(w, stages, rank, roots, |roots|);
    }

    /** One pass of that loop: the search from the `i`-th writer of the
        target. */
    method DfsRoot(w: Writers, roots: seq<nat>, i: nat, ghost rank: seq<nat>, ghost base: seq<nat>)
      requires i < |roots| && (forall k :: 0 <= k < |roots| ==> roots[k] < |stages|)
      requires RankedWriters(w, stages, rank) && stageStack == base + VisitAll(w, stages, rank, roots, i)
      modifies this`stageStack
      ensures stageStack == base + VisitAll(w, stages, rank, roots, i + 1)
    {
      Dfs(w, roots[i], rank);
    }

    /** One step of the physical-stage loop: builds the stage at stack
        position `k` and records it under its stage index, which the source
        does before building anything, so a failing stage is left with its
        render pass and layout but no pipeline. */
    method BuildStackEntry(k: nat) returns (err: Option<CompileError>)
      requires Valid() && |physicalTextures| == |textures| && k < |stageStack|
      requires StagesBuilt(physicalStages, stages, buffers, textures, physicalTextures, swapchainImageCount, extent,
                           stageStack, k)
      modifies this`physicalStages, this`nextHandle, builder
      ensures Valid()
      ensures err == StageError(stages, buffers, stageStack[k])
      ensures physicalStages.Keys == old(physicalStages).Keys + {stageStack[k]}
      ensures err.Some? ==> physicalStages[stageStack[k]].pipelineHandle == NullHandle
      ensures err.None? ==> StagesBuilt(physicalStages, stages, buffers, textures, physicalTextures,
                                        swapchainImageCount, extent, stageStack, k + 1)
    {
      var s := stageStack[k];
      var p;
      err, p := BuildPhysicalStage(s);
      if err.None? {
        StagesBuiltStep(physicalStages, stages, buffers, textures, physicalTextures, swapchainImageCount, extent,
                        stageStack, k, p);
      }
      physicalStages := physicalStages[s := p];
    }

    /** The loop of compile over the stage stack: a physical stage for every
        stage on it, in stack order, until the first one whose pipeline cannot
        be built ends compilation with its error. */
    method BuildPhysicalStages() returns (err: Option<CompileError>)
      requires Valid() && |physicalTextures| == |textures|
      modifies this`physicalStages, this`nextHandle, builder
      ensures Valid()
      ensures ReadsValid(stages, |buffers|) && err == FirstError(stages, buffers, stageStack, |stageStack|)
      ensures err.None? ==> StagesBuilt(physicalStages, stages, buffers, textures, physicalTextures, swapchainImageCount,
                                        extent, stageStack, |stageStack|)
    {
      StagesValidReads(stages, |buffers|, |textures|);
      var k := 0;
      while k < |stageStack|
        invariant 0 <= k <= |stageStack|
        invariant Valid()
        invariant FirstError(stages, buffers, stageStack, k).None?
        invariant StagesBuilt(physicalStages, stages, buffers, textures, physicalTextures, swapchainImageCount, extent,
                              stageStack, k)
      {
        var e := BuildStackEntry(k);
        if e.Some? {
          assert FirstError(stages, buffers, stageStack, k + 1) == e;
          FirstErrorStays(stages, buffers, stageStack, k + 1, |stageStack|);
          return e;
        }
        k := k + 1;
      }
      err := None;
    }

    /** compile: the stage order from the writers of `target`, appended to
        the stack; fresh physical buffers and textures; then the physical
        stages. The stage graph must be acyclic, as witnessed by `rank`. */
    method Compile(target: ResourceRef, ghost rank: seq<nat>) returns (err: Option<CompileError>)
      requires Valid() && Ranked(stages, rank)
      modifies this`stageStack, this`physicalBuffers, this`physicalTextures, this`physicalStages, this`nextHandle, builder
      ensures Valid()
      ensures stageStack == old(stageStack) + Order(stages, rank, target)
      ensures physicalBuffers == Repeat(FreshPhysicalBuffer, |buffers|)
      ensures physicalTextures == PhysicalTexturesFor(textures, old(nextHandle))
      ensures ReadsValid(stages, |buffers|) && err == FirstError(stages, buffers, stageStack, |stageStack|)
      ensures err.None? ==> StagesBuilt(physicalStages, stages, buffers, textures, physicalTextures, swapchainImageCount,
                                        extent, stageStack, |stageStack|)
    {
      ScheduleStages(target, rank);
      AllocateBuffers();
      AllocateTextures();
      err := BuildPhysicalStages();
    }

    // ------------------------------------------------------------ per frame

    /** Replaces the backing buffer of every buffer whose upload flag is set
        and clears the flag; buffer `i` takes the `i`-th handle from the
        counter. */
    method UpdateDynamicBuffers()
      requires |physicalBuffers| == |buffers|
      modifies this`buffers, this`physicalBuffers, this`nextHandle
      ensures buffers == ClearedFlags(old(buffers))
      ensures physicalBuffers == UpdatedBuffers(old(buffers), old(physicalBuffers), old(nextHandle))
      ensures nextHandle == old(nextHandle) + |buffers|
    {
      var base := nextHandle;
      var i := 0;
      while i < |buffers|
        invariant 0 <= i <= |buffers| == |old(buffers)| && |physicalBuffers| == |buffers|
        invariant forall k :: 0 <= k < i ==> buffers[k] == old(buffers)[k].(dataUploadNeeded := false)
        invariant forall k :: i <= k < |buffers| ==> buffers[k] == old(buffers)[k]
        invariant forall k :: 0 <= k < i ==>
          physicalBuffers[k] == UpdatedBuffer(old(buffers)[k], old(physicalBuffers)[k], base + k)
        invariant forall k :: i <= k < |buffers| ==> physicalBuffers[k] == old(physicalBuffers)[k]
      {
        var b := buffers[i];
        if b.dataUploadNeeded {
          var physical := physicalBuffers[i];
          var allocation := BufferAllocation(base + i, b.dataSize, UploadUsage(b.usage));
          physicalBuffers := physicalBuffers[i := PhysicalBuffer(Some(allocation), physical.replacements + 1)];
          buffers := buffers[i := b.(dataUploadNeeded := false)];
        }
        i := i + 1;
      }
      nextHandle := base + |buffers|;
    }

    /** record_command_buffer for stage `s`, with `user` the commands of the
        stage's own callback. */
    method RecordCommandBuffer(s: nat, cb: CommandBuffer, imageIndex: nat, user: seq<Command>) returns (ok: bool)
      requires s < |stages| && s in physicalStages
      requires |physicalBuffers| == |buffers| && BuffersIn(stages[s].readsFrom, |buffers|)
      modifies cb
      ensures var cs := StageCommands(physicalStages[s], stages[s], buffers, physicalBuffers, imageIndex, extent, user);
              ok == cs.Some? && cb.log == old(cb.log) + (if cs.Some? then cs.value else [])
    {
      ok := RecordStage(physicalStages[s], stages[s], buffers, physicalBuffers, imageIndex, extent, user, cb);
    }

    /** render: the uploads, then every stage on the stack in order, each
        with the commands its callback records; stops at the first stage
        without a framebuffer for the image. */
    method Render(imageIndex: nat, cb: CommandBuffer, onRecord: (nat, PhysicalGraphicsStage) -> seq<Command>)
      returns (ok: bool)
      requires Recordable(stages, buffers, physicalBuffers, physicalStages, stageStack)
      modifies this`buffers, this`physicalBuffers, this`nextHandle, cb
      ensures buffers == ClearedFlags(old(buffers))
      ensures physicalBuffers == UpdatedBuffers(old(buffers), old(physicalBuffers), old(nextHandle))
      ensures Recordable(stages, buffers, physicalBuffers, physicalStages, stageStack)
      ensures var rec := Recording(stages, buffers, physicalBuffers, physicalStages, stageStack, imageIndex, extent,
                                   onRecord, |stageStack|);
              cb.log == old(cb.log) + rec.commands && ok == rec.completed
    {
      UpdateDynamicBuffers();
      ghost var entries := FrameEntries(stages, buffers, physicalBuffers, physicalStages, stageStack, imageIndex,
                                        extent, onRecord);
      RecordingByEntries(stages, buffers, physicalBuffers, physicalStages, stageStack, imageIndex, extent, onRecord,
                         entries, |stageStack|);
      ok := RecordStages(stages, buffers, physicalBuffers, physicalStages, stageStack, imageIndex, extent, onRecord,
                         entries, cb);
    }
  }

  /** The loop of render over the stage stack, given what each entry
      records. */
  method RecordStages(stages: seq<GraphicsStage>, buffers: seq<BufferResource>, phys: seq<PhysicalBuffer>,
                      physicalStages: map<nat, PhysicalGraphicsStage>, stack: seq<nat>, imageIndex: nat,
                      extent: Extent2D, onRecord: (nat, PhysicalGraphicsStage) -> seq<Command>,
                      ghost entries: seq<Option<seq<Command>>>, cb: CommandBuffer)
    returns (ok: bool)
    requires Recordable(stages, buffers, phys, physicalStages, stack) && |entries| == |stack|
    requires forall k | 0 <= k < |stack| ::
               EntryMatches(entries, stages, buffers, phys, physicalStages, stack, imageIndex, extent, onRecord, k)
    modifies cb
    ensures var rec := RecordEntries(entries, |stack|); cb.log == old(cb.log) + rec.commands && ok == rec.completed
  {
    var k := 0;
    while k < |stack|
      invariant 0 <= k <= |stack|
      invariant RecordEntries(entries, k).completed
      invariant cb.log == old(cb.log) + RecordEntries(entries, k).commands
    {
      var recorded := RecordEntry(stages, buffers, phys, physicalStages, stack, imageIndex, extent, onRecord, k,
                                  entries, cb);
      if !recorded {
        RecordEntriesStops(entries, k + 1, |stack|);
        return false;
      }
      k := k + 1;
    }
    ok := true;
  }

  /** One pass of that loop: the stage at stack entry `k` records its
      commands, or recording stops there. */
  method RecordEntry(stages: seq<GraphicsStage>, buffers: seq<BufferResource>, phys: seq<PhysicalBuffer>,
                     physicalStages: map<nat, PhysicalGraphicsStage>, stack: seq<nat>, imageIndex: nat,
                     extent: Extent2D, onRecord: (nat, PhysicalGraphicsStage) -> seq<Command>, k: nat,
                     ghost entries: seq<Option<seq<Command>>>, cb: CommandBuffer)
    returns (ok: bool)
    requires k < |stack| && Recordable(stages, buffers, phys, physicalStages, stack) && |entries| == |stack|
    requires forall k | 0 <= k < |stack| ::
               EntryMatches(entries, stages, buffers, phys, physicalStages, stack, imageIndex, extent, onRecord, k)
    modifies cb
    ensures ok == entries[k].Some? && cb.log == old(cb.log) + (if ok then entries[k].value else [])
  {
    var s := stack[k];
    assert BuffersIn(stages[s].readsFrom, |buffers|);
    assert EntryMatches(entries, stages, buffers, phys, physicalStages, stack, imageIndex, extent, onRecord, k);
    ok := RecordStage(physicalStages[s], stages[s], buffers, phys, imageIndex, extent,
                      onRecord(s, physicalStages[s]), cb);
  }

  /** The buffer loop of record_command_buffer: an index-buffer bind for
      every uploaded index buffer read, in read order, and the uploaded
      vertex buffers collected for one multi-bind. */
  method BindReadBuffers(st: GraphicsStage, buffers: seq<BufferResource>, phys: seq<PhysicalBuffer>, cb: CommandBuffer)
    returns (vertexBuffers: seq<Handle>)
    requires |phys| == |buffers| && BuffersIn(st.readsFrom, |buffers|)
    modifies cb
    ensures vertexBuffers == UploadedReads(st, buffers, phys, VertexBuffer, |st.readsFrom|)
    ensures cb.log == old(cb.log) + IndexBinds(UploadedReads(st, buffers, phys, IndexBuffer, |st.readsFrom|))
  {
    vertexBuffers := [];
    ghost var indexBuffers: seq<Handle> := [];
    var i := 0;
    while i < |st.readsFrom|
      invariant 0 <= i <= |st.readsFrom|
      invariant vertexBuffers == UploadedReads(st, buffers, phys, VertexBuffer, i)
      invariant indexBuffers == UploadedReads(st, buffers, phys, IndexBuffer, i)
      invariant cb.log == old(cb.log) + IndexBinds(indexBuffers)
    {
      var r := st.readsFrom[i];
      if r.BufferRef? && phys[r.buffer].buffer.Some? {
        var h := phys[r.buffer].buffer.value.handle;
        if buffers[r.buffer].usage == IndexBuffer {
          var c := cb.BindIndexBuffer(h);
          assert (indexBuffers + [h])[..|indexBuffers|] == indexBuffers;
          indexBuffers := indexBuffers + [h];
        } else if buffers[r.buffer].usage == VertexBuffer {
          vertexBuffers := vertexBuffers + [h];
        }
      }
      i := i + 1;
    }
  }

  /** The commands record_command_buffer emits for one physical stage; false
      when there is no framebuffer for the image, in which case `.at()`
      throws before anything is recorded. */
  method RecordStage(physical: PhysicalGraphicsStage, st: GraphicsStage, buffers: seq<BufferResource>,
                     phys: seq<PhysicalBuffer>, imageIndex: nat, extent: Extent2D, user: seq<Command>, cb: CommandBuffer)
    returns (ok: bool)
    requires |phys| == |buffers| && BuffersIn(st.readsFrom, |buffers|)
    modifies cb
    ensures var cs := StageCommands(physical, st, buffers, phys, imageIndex, extent, user);
            ok == cs.Some? && cb.log == old(cb.log) + (if cs.Some? then cs.value else [])
  {
    if imageIndex >= |physical.framebuffers| {
      return false;
    }
    BeginStage(physical, st, buffers, phys, imageIndex, extent, cb);
    EndStage(physical.pipelineHandle, user, cb);
    assert cb.log == old(cb.log) + (StageOpening(physical, st, buffers, phys, imageIndex, extent)
                                    + StageClosing(physical.pipelineHandle, user));
    ok := true;
  }

  /** The first half of record_command_buffer: the render pass begins on the
      image's framebuffer and the read buffers are bound. */
  method BeginStage(physical: PhysicalGraphicsStage, st: GraphicsStage, buffers: seq<BufferResource>,
                    phys: seq<PhysicalBuffer>, imageIndex: nat, extent: Extent2D, cb: CommandBuffer)
    requires |phys| == |buffers| && BuffersIn(st.readsFrom, |buffers|) && imageIndex < |physical.framebuffers|
    modifies cb
    ensures cb.log == old(cb.log) + StageOpening(physical, st, buffers, phys, imageIndex, extent)
  {
    var info := RenderPassBeginInfo(physical.renderPass, physical.framebuffers[imageIndex], extent, 2);
    var c := cb.BeginRenderPass(info);
    var vertexBuffers := BindReadBuffers(st, buffers, phys, cb);
    if vertexBuffers != [] {
      c := cb.BindVertexBuffers(vertexBuffers);
    }
  }

  /** The second half: the pipeline, the stage's own commands, the end of
      the render pass and the barrier after it. */
  method EndStage(pipelineHandle: Handle, user: seq<Command>, cb: CommandBuffer)
    modifies cb
    ensures cb.log == old(cb.log) + StageClosing(pipelineHandle, user)
  {
    var c := cb.BindPipeline(pipelineHandle);
    cb.RecordAll(user);
    cb.EndRenderPass();
    cb.FullBarrier();
  }
}
