/** What `compile` and `render` derive from the declared graph: the physical
    resources, each stage's render pass, vertex input, pipeline and
    framebuffers, and the commands a frame records. The `RenderGraph` class
    is proved against these functions. */
module RenderGraphModel {
  import opened Vk
  import opened Wrappers
  import opened RenderGraphOrder
  import opened PipelineBuilders
  import opened Commands

  /** `static_cast<std::uint32_t>` of a size. */
  function U32(n: nat): (r: nat)
    ensures r < 0x1_0000_0000 && (n < 0x1_0000_0000 ==> r == n)
  {
    n % 0x1_0000_0000
  }

  /** Every texture among `rs` is one of the first `textureCount`. */
  predicate TexturesIn(rs: seq<ResourceRef>, textureCount: nat) {
    forall i :: 0 <= i < |rs| && rs[i].TextureRef? ==> rs[i].texture < textureCount
  }

  /** Every buffer among `rs` is one of the first `bufferCount`. */
  predicate BuffersIn(rs: seq<ResourceRef>, bufferCount: nat) {
    forall i :: 0 <= i < |rs| && rs[i].BufferRef? ==> rs[i].buffer < bufferCount
  }

  /** Every resource a stage writes or reads is one the graph holds. */
  predicate StageValid(st: GraphicsStage, bufferCount: nat, textureCount: nat) {
    && TexturesIn(st.writesTo, textureCount) && BuffersIn(st.writesTo, bufferCount)
    && TexturesIn(st.readsFrom, textureCount) && BuffersIn(st.readsFrom, bufferCount)
  }

  predicate StagesValid(stages: seq<GraphicsStage>, bufferCount: nat, textureCount: nat) {
    forall s :: 0 <= s < |stages| ==> StageValid(stages[s], bufferCount, textureCount)
  }

  /** Every buffer any stage reads is one the graph holds. */
  predicate ReadsValid(stages: seq<GraphicsStage>, bufferCount: nat) {
    forall s :: 0 <= s < |stages| ==> BuffersIn(stages[s].readsFrom, bufferCount)
  }

  /** `std::unordered_map::emplace`: the entry is added only when the key is
      not there yet; an existing entry is kept. */
  function Emplace(m: map<nat, nat>, k: nat, v: nat): (r: map<nat, nat>)
    ensures r.Keys == m.Keys + {k}
    ensures r[k] == if k in m then m[k] else v
    ensures forall j :: j in m ==> r[j] == m[j]
  {
    if k in m then m else m[k := v]
  }

  /** A second emplace for the same key changes nothing: the first binding wins. */
  lemma EmplaceFirstWins(m: map<nat, nat>, k: nat, v1: nat, v2: nat)
    ensures Emplace(Emplace(m, k, v1), k, v2) == Emplace(m, k, v1)
    ensures Emplace(Emplace(m, k, v1), k, v2)[k] == if k in m then m[k] else v1
  {
  }

  lemma StagesValidReads(stages: seq<GraphicsStage>, bufferCount: nat, textureCount: nat)
    requires StagesValid(stages, bufferCount, textureCount)
    ensures ReadsValid(stages, bufferCount)
  {
    forall s | 0 <= s < |stages| ensures BuffersIn(stages[s].readsFrom, bufferCount) {
      assert StageValid(stages[s], bufferCount, textureCount);
    }
  }

  // ---------------------------------------------------------------- physical resources

  datatype BufferUsageBit = VertexBufferBit | IndexBufferBit

  /** The usage a backing buffer is created with: only a vertex buffer gets
      the vertex bit, every other buffer (uniform buffers included) the index
      bit. */
  function UploadUsage(u: BufferUsage): (bit: BufferUsageBit)
    ensures bit == VertexBufferBit <==> u == VertexBuffer
  {
    if u == VertexBuffer then VertexBufferBit else IndexBufferBit
  }

  datatype BufferAllocation = BufferAllocation(handle: Handle, size: nat, usage: BufferUsageBit)

  /** The physical side of a buffer: its backing buffer, if one has been
      created, and how many backing buffers have been created for it. */
  datatype PhysicalBuffer = PhysicalBuffer(buffer: Option<BufferAllocation>, replacements: nat)

  const FreshPhysicalBuffer := PhysicalBuffer(None, 0)

  datatype PhysicalTexture =
    | PhysicalBackBuffer
    | PhysicalImage(image: Handle, format: Format, usage: ImageUsageFlags, aspect: ImageAspectFlags)

  /** The back buffer maps onto the swapchain; every other texture gets an
      image of its format, for depth-stencil use exactly when it is the depth
      buffer. */
  function PhysicalTextureFor(t: TextureResource, image: Handle): (p: PhysicalTexture)
    ensures p.PhysicalBackBuffer? <==> t.usage == BackBuffer
    ensures p.PhysicalImage? ==> p.image == image && p.format == t.format
    ensures p.PhysicalImage? ==> (p.usage == DepthStencilAttachmentUsage <==> t.usage == DepthStencilBuffer)
    ensures p.PhysicalImage? ==> (p.aspect == DepthStencilAspect <==> t.usage == DepthStencilBuffer)
  {
    if t.usage == BackBuffer then PhysicalBackBuffer
    else
      var depth := t.usage == DepthStencilBuffer;
      PhysicalImage(image, t.format,
                    if depth then DepthStencilAttachmentUsage else ColorAttachmentUsage,
                    if depth then DepthStencilAspect else ColorAspect)
  }

  /** The physical textures compile creates; the image of texture `i` gets
      handle `base + i`. */
  function PhysicalTexturesFor(textures: seq<TextureResource>, base: Handle): (ps: seq<PhysicalTexture>)
    ensures |ps| == |textures|
    ensures forall i :: 0 <= i < |textures| ==> ps[i] == PhysicalTextureFor(textures[i], base + i)
  {
    seq(|textures|, i requires 0 <= i < |textures| => PhysicalTextureFor(textures[i], base + i))
  }

  // ---------------------------------------------------------------- render pass

  datatype AttachmentDescription = AttachmentDescription(
    format: Format,
    samples: nat,
    loadOp: AttachmentLoadOp,
    storeOp: AttachmentStoreOp,
    stencilLoadOp: AttachmentLoadOp,
    stencilStoreOp: AttachmentStoreOp,
    initialLayout: ImageLayout,
    finalLayout: ImageLayout)

  datatype AttachmentReference = AttachmentReference(attachment: nat, layout: ImageLayout)

  /** The three vectors build_render_pass fills. */
  datatype RenderPassDesc = RenderPassDesc(
    attachments: seq<AttachmentDescription>,
    colourRefs: seq<AttachmentReference>,
    depthRefs: seq<AttachmentReference>)

  /** The render pass create-info: one subpass using the colour references
      and the first depth reference, and one external dependency. */
  datatype RenderPassInfo = RenderPassInfo(
    attachmentCount: nat,
    attachments: seq<AttachmentDescription>,
    colorAttachmentCount: nat,
    colorAttachments: seq<AttachmentReference>,
    depthStencilAttachment: Option<AttachmentReference>,
    subpassCount: nat,
    dependencyCount: nat)

  /** The attachment for a written texture. */
  function AttachmentFor(t: TextureResource, clears: bool): (a: AttachmentDescription)
    ensures a.format == t.format && a.samples == 1 && a.storeOp == StoreOpStore
    ensures a.stencilLoadOp == LoadOpDontCare && a.stencilStoreOp == StoreOpDontCare
    ensures a.loadOp == if clears then LoadOpClear else if t.usage == BackBuffer then LoadOpLoad else LoadOpDontCare
    ensures a.initialLayout == if t.usage == BackBuffer && !clears then PresentSrc else LayoutUndefined
    ensures a.finalLayout == match t.usage
                             case BackBuffer => PresentSrc
                             case DepthStencilBuffer => DepthStencilAttachmentOptimal
                             case NormalTexture => ColorAttachmentOptimal
  {
    var base := AttachmentDescription(t.format, 1, if clears then LoadOpClear else LoadOpDontCare, StoreOpStore,
                                      LoadOpDontCare, StoreOpDontCare, LayoutUndefined, LayoutUndefined);
    match t.usage
    case BackBuffer =>
      (if clears then base else base.(initialLayout := PresentSrc, loadOp := LoadOpLoad)).(finalLayout := PresentSrc)
    case DepthStencilBuffer => base.(finalLayout := DepthStencilAttachmentOptimal)
    case NormalTexture => base.(finalLayout := ColorAttachmentOptimal)
  }

  /** One iteration of the attachment loop for the texture written at
      position `i`: the reference carries `i`, the position in the write list. */
  function RenderPassStep(d: RenderPassDesc, i: nat, t: TextureResource, clears: bool): RenderPassDesc {
    var a := AttachmentFor(t, clears);
    if t.usage == DepthStencilBuffer then
      RenderPassDesc(d.attachments + [a], d.colourRefs, d.depthRefs + [AttachmentReference(i, DepthStencilAttachmentOptimal)])
    else
      RenderPassDesc(d.attachments + [a], d.colourRefs + [AttachmentReference(i, ColorAttachmentOptimal)], d.depthRefs)
  }

  /** The vectors after the first `n` writes; buffer writes are skipped. */
  function RenderPassUpTo(writes: seq<ResourceRef>, textures: seq<TextureResource>, clears: bool, n: nat): RenderPassDesc
    requires n <= |writes| && TexturesIn(writes, |textures|)
  {
    if n == 0 then RenderPassDesc([], [], [])
    else
      var d := RenderPassUpTo(writes, textures, clears, n - 1);
      var r := writes[n - 1];
      if r.BufferRef? then d else RenderPassStep(d, n - 1, textures[r.texture], clears)
  }

  function RenderPassFor(st: GraphicsStage, textures: seq<TextureResource>): RenderPassInfo
    requires TexturesIn(st.writesTo, |textures|)
  {
    var d := RenderPassUpTo(st.writesTo, textures, st.clearsScreen, |st.writesTo|);
    RenderPassInfo(|d.attachments|, d.attachments, |d.colourRefs|, d.colourRefs,
                   if d.depthRefs == [] then None else Some(d.depthRefs[0]), 1, 1)
  }

  /** The textures among the first `n` writes, in write order. */
  function TexturesWritten(writes: seq<ResourceRef>, n: nat): seq<nat>
    requires n <= |writes|
  {
    if n == 0 then []
    else if writes[n - 1].TextureRef? then TexturesWritten(writes, n - 1) + [writes[n - 1].texture]
    else TexturesWritten(writes, n - 1)
  }

  /** Write position `i` is a texture the given reference list should cover. */
  predicate RefTarget(writes: seq<ResourceRef>, textures: seq<TextureResource>, i: nat, depth: bool)
    requires TexturesIn(writes, |textures|)
  {
    i < |writes| && writes[i].TextureRef? && (textures[writes[i].texture].usage == DepthStencilBuffer <==> depth)
  }

  /** One attachment per written texture, in write order, and one reference
      per attachment. */
  lemma {:induction false} RenderPassAttachments(writes: seq<ResourceRef>, textures: seq<TextureResource>, clears: bool,
                                                 n: nat)
    requires n <= |writes| && TexturesIn(writes, |textures|)
    ensures var d := RenderPassUpTo(writes, textures, clears, n);
            var tw := TexturesWritten(writes, n);
            && (forall k :: 0 <= k < |tw| ==> tw[k] < |textures|)
            && |d.attachments| == |tw| == |d.colourRefs| + |d.depthRefs|
            && (forall k :: 0 <= k < |tw| ==> d.attachments[k] == AttachmentFor(textures[tw[k]], clears))
  {
    if n > 0 {
      RenderPassAttachments(writes, textures, clears, n - 1);
    }
  }

  /** A colour reference for every written non-depth texture and a depth
      reference for every written depth texture, each naming the texture's
      position in the write list. */
  lemma {:induction false} RenderPassReferences(writes: seq<ResourceRef>, textures: seq<TextureResource>, clears: bool,
                                                n: nat, i: nat, l: ImageLayout)
    requires n <= |writes| && TexturesIn(writes, |textures|)
    ensures var d := RenderPassUpTo(writes, textures, clears, n);
            && (AttachmentReference(i, l) in d.colourRefs <==>
                  i < n && RefTarget(writes, textures, i, false) && l == ColorAttachmentOptimal)
            && (AttachmentReference(i, l) in d.depthRefs <==>
                  i < n && RefTarget(writes, textures, i, true) && l == DepthStencilAttachmentOptimal)
  {
    if n > 0 {
      RenderPassReferences(writes, textures, clears, n - 1, i, l);
    }
  }

  /** The references name attachments in strictly increasing order, all
      below `n`. */
  predicate RefsBelow(refs: seq<AttachmentReference>, n: nat) {
    && (forall k :: 0 <= k < |refs| ==> refs[k].attachment < n)
    && (forall j, k :: 0 <= j < k < |refs| ==> refs[j].attachment < refs[k].attachment)
  }

  lemma RefsBelowExtend(refs: seq<AttachmentReference>, n: nat, l: ImageLayout)
    requires RefsBelow(refs, n)
    ensures RefsBelow(refs + [AttachmentReference(n, l)], n + 1)
  {
  }

  /** References are listed in write order. */
  lemma {:induction false} RenderPassReferencesOrdered(writes: seq<ResourceRef>, textures: seq<TextureResource>,
                                                       clears: bool, n: nat)
    requires n <= |writes| && TexturesIn(writes, |textures|)
    ensures var d := RenderPassUpTo(writes, textures, clears, n);
            RefsBelow(d.colourRefs, n) && RefsBelow(d.depthRefs, n)
  {
    if n > 0 {
      RenderPassReferencesOrdered(writes, textures, clears, n - 1);
      var prev := RenderPassUpTo(writes, textures, clears, n - 1);
      var d := RenderPassUpTo(writes, textures, clears, n);
      var r := writes[n - 1];
      if r.BufferRef? {
        assert d == prev;
      } else if textures[r.texture].usage == DepthStencilBuffer {
        assert d.colourRefs == prev.colourRefs;
        assert d.depthRefs == prev.depthRefs + [AttachmentReference(n - 1, DepthStencilAttachmentOptimal)];
        RefsBelowExtend(prev.depthRefs, n - 1, DepthStencilAttachmentOptimal);
      } else {
        assert d.colourRefs == prev.colourRefs + [AttachmentReference(n - 1, ColorAttachmentOptimal)];
        assert d.depthRefs == prev.depthRefs;
        RefsBelowExtend(prev.colourRefs, n - 1, ColorAttachmentOptimal);
      }
    }
  }

  /** As written, a buffer written before a texture shifts the texture's
      reference past the end of the attachment list. */
  lemma BufferWriteShiftsReference(backBuffer: TextureResource)
    requires backBuffer.usage == BackBuffer
    ensures var d := RenderPassUpTo([BufferRef(0), TextureRef(0)], [backBuffer], true, 2);
            |d.attachments| == 1 && d.colourRefs == [AttachmentReference(1, ColorAttachmentOptimal)]
  {
    var writes, textures := [BufferRef(0), TextureRef(0)], [backBuffer];
    assert RenderPassUpTo(writes, textures, true, 1) == RenderPassDesc([], [], []);
  }

  // ---------------------------------------------------------------- vertex input

  datatype CompileError = MissingBufferBinding(stage: nat, buffer: nat) | EmptyVertexInput(stage: nat)

  datatype VertexInput = VertexInput(bindings: seq<VertexInputBinding>, attributes: seq<VertexInputAttribute>)

  /** A buffer's attributes with their binding overwritten. */
  function Rebind(attributes: seq<VertexInputAttribute>, binding: nat): (r: seq<VertexInputAttribute>)
    ensures |r| == |attributes|
    ensures forall k :: 0 <= k < |r| ==> r[k] == attributes[k].(binding := binding)
  {
    if attributes == [] then [] else Rebind(attributes[..|attributes| - 1], binding) + [attributes[|attributes| - 1].(binding := binding)]
  }

  /** Read position `i` is a buffer other than an index buffer. */
  predicate VertexRead(st: GraphicsStage, buffers: seq<BufferResource>, i: nat)
    requires BuffersIn(st.readsFrom, |buffers|)
  {
    i < |st.readsFrom| && st.readsFrom[i].BufferRef? && buffers[st.readsFrom[i].buffer].usage != IndexBuffer
  }

  /** The vertex input after the first `n` reads, or the first buffer read
      that has no binding slot (where `.at()` throws). */
  function VertexInputUpTo(st: GraphicsStage, buffers: seq<BufferResource>, n: nat): Result<VertexInput, nat>
    requires n <= |st.readsFrom| && BuffersIn(st.readsFrom, |buffers|)
  {
    if n == 0 then Success(VertexInput([], []))
    else
      match VertexInputUpTo(st, buffers, n - 1)
      case Failure(b) => Failure(b)
      case Success(vi) =>
        if !VertexRead(st, buffers, n - 1) then Success(vi)
        else
          var b := st.readsFrom[n - 1].buffer;
          if b !in st.bufferBindings then Failure(b)
          else
            var slot := st.bufferBindings[b];
            Success(VertexInput(vi.bindings + [VertexInputBinding(slot, U32(buffers[b].elementSize), InputRateVertex)],
                                vi.attributes + Rebind(buffers[b].vertexAttributes, slot)))
  }

  function VertexInputFor(st: GraphicsStage, buffers: seq<BufferResource>): Result<VertexInput, nat>
    requires BuffersIn(st.readsFrom, |buffers|)
  {
    VertexInputUpTo(st, buffers, |st.readsFrom|)
  }

  /** The first missing binding stays the answer: `.at()` throws there and
      the later reads are never looked at. */
  lemma {:induction false} VertexInputFailureStays(st: GraphicsStage, buffers: seq<BufferResource>, i: nat, n: nat)
    requires i <= n <= |st.readsFrom| && BuffersIn(st.readsFrom, |buffers|)
    requires VertexInputUpTo(st, buffers, i).Failure?
    ensures VertexInputUpTo(st, buffers, n) == VertexInputUpTo(st, buffers, i)
    decreases n - i
  {
    if i < n {
      VertexInputFailureStays(st, buffers, i, n - 1);
    }
  }

  /** Vertex input succeeds exactly when every vertex-buffer read has a
      binding slot; a failure names a read buffer without one; on success
      there is one binding per vertex-buffer read, and every binding and
      attribute uses a slot the stage bound. */
  lemma {:induction false} VertexInputFacts(st: GraphicsStage, buffers: seq<BufferResource>, n: nat)
    requires n <= |st.readsFrom| && BuffersIn(st.readsFrom, |buffers|)
    ensures VertexInputUpTo(st, buffers, n).Success? <==>
      forall i :: 0 <= i < n && VertexRead(st, buffers, i) ==> st.readsFrom[i].buffer in st.bufferBindings
    ensures VertexInputUpTo(st, buffers, n).Failure? ==>
      exists i :: 0 <= i < n && VertexRead(st, buffers, i) && st.readsFrom[i].buffer == VertexInputUpTo(st, buffers, n).error
                  && st.readsFrom[i].buffer !in st.bufferBindings
    ensures VertexInputUpTo(st, buffers, n).Success? ==>
      var vi := VertexInputUpTo(st, buffers, n).value;
      && (forall k :: 0 <= k < |vi.bindings| ==>
            vi.bindings[k].inputRate == InputRateVertex && vi.bindings[k].binding in st.bufferBindings.Values)
      && (forall k :: 0 <= k < |vi.attributes| ==> vi.attributes[k].binding in st.bufferBindings.Values)
  {
    if n > 0 {
      VertexInputFacts(st, buffers, n - 1);
      var prev := VertexInputUpTo(st, buffers, n - 1);
      if prev.Success? && VertexRead(st, buffers, n - 1) {
        var b := st.readsFrom[n - 1].buffer;
        if b in st.bufferBindings {
          assert st.bufferBindings[b] in st.bufferBindings.Values;
        }
      }
    }
  }

  /** Why a stage cannot get a pipeline: a missing binding slot, or no vertex
      binding or attribute at all (build() asserts both are present). */
  function StageError(stages: seq<GraphicsStage>, buffers: seq<BufferResource>, s: nat): (e: Option<CompileError>)
    requires s < |stages| && BuffersIn(stages[s].readsFrom, |buffers|)
    ensures e.None? <==> (VertexInputFor(stages[s], buffers).Success? &&
                          VertexInputFor(stages[s], buffers).value.bindings != [] &&
                          VertexInputFor(stages[s], buffers).value.attributes != [])
  {
    match VertexInputFor(stages[s], buffers)
    case Failure(b) => Some(MissingBufferBinding(s, b))
    case Success(vi) => if vi.bindings == [] || vi.attributes == [] then Some(EmptyVertexInput(s)) else None
  }

  /** The first error among the first `n` stack entries, in stack order. */
  function FirstError(stages: seq<GraphicsStage>, buffers: seq<BufferResource>, stack: seq<nat>, n: nat)
    : Option<CompileError>
    requires n <= |stack| && forall k :: 0 <= k < |stack| ==> stack[k] < |stages|
    requires ReadsValid(stages, |buffers|)
  {
    if n == 0 then None
    else if FirstError(stages, buffers, stack, n - 1).Some? then FirstError(stages, buffers, stack, n - 1)
    else StageError(stages, buffers, stack[n - 1])
  }

  /** Once a stage has failed, the later stages do not change the error. */
  lemma {:induction false} FirstErrorStays(stages: seq<GraphicsStage>, buffers: seq<BufferResource>, stack: seq<nat>,
                                           i: nat, n: nat)
    requires i <= n <= |stack| && forall k :: 0 <= k < |stack| ==> stack[k] < |stages|
    requires ReadsValid(stages, |buffers|)
    requires FirstError(stages, buffers, stack, i).Some?
    ensures FirstError(stages, buffers, stack, n) == FirstError(stages, buffers, stack, i)
    decreases n - i
  {
    if i < n {
      FirstErrorStays(stages, buffers, stack, i, n - 1);
    }
  }

  lemma {:induction false} FirstErrorFacts(stages: seq<GraphicsStage>, buffers: seq<BufferResource>, stack: seq<nat>,
                                           n: nat)
    requires n <= |stack| && forall k :: 0 <= k < |stack| ==> stack[k] < |stages|
    requires ReadsValid(stages, |buffers|)
    ensures FirstError(stages, buffers, stack, n).None? <==>
      forall k :: 0 <= k < n ==> StageError(stages, buffers, stack[k]).None?
    ensures FirstError(stages, buffers, stack, n).Some? ==>
      exists k :: 0 <= k < n && FirstError(stages, buffers, stack, n) == StageError(stages, buffers, stack[k])
  {
    if n > 0 {
      FirstErrorFacts(stages, buffers, stack, n - 1);
    }
  }

  // ---------------------------------------------------------------- pipeline

  const PipelineName := "graphics pipeline"

  datatype PipelineLayoutDesc = PipelineLayoutDesc(descriptorLayouts: seq<Handle>, pushConstantRanges: seq<PushConstantRange>)

  /** The create-info build_graphics_pipeline obtains from a builder in reset
      state: the stage's shaders and vertex input, one colour blend attachment
      writing all channels, the stage's depth flags with LESS_OR_EQUAL, one
      viewport and one scissor over the swapchain extent; everything else
      keeps reset()'s defaults. */
  function PipelineCreateInfoFor(st: GraphicsStage, vi: VertexInput, layout: Handle, extent: Extent2D)
    : GraphicsPipelineCreateInfo
  {
    GraphicsPipelineCreateInfo(
      PipelineRenderingInfo(1, [Undefined], Undefined, Undefined),
      |st.shaders|, st.shaders,
      VertexInputState(|vi.bindings|, vi.bindings, |vi.attributes|, vi.attributes),
      DefaultInputAssembly,
      ZeroTessellation,
      ViewportState(1, [Viewport(0, 0, extent.width, extent.height)], 1, [Rect2D(0, 0, extent.width, extent.height)]),
      DefaultRasterization,
      DefaultMultisample,
      DepthStencilState(st.depthTest, st.depthWrite, CompareLessOrEqual),
      ColorBlendState(1, [st.blendAttachment.(colorWriteMask := AllComponents)]),
      EmptyDynamicStateInfo,
      layout,
      NullHandle)
  }

  // ---------------------------------------------------------------- framebuffers

  /** How many of the first `n` writes land on the back buffer. */
  function BackBufferWrites(writes: seq<ResourceRef>, phys: seq<PhysicalTexture>, n: nat): nat
    requires n <= |writes| && TexturesIn(writes, |phys|)
  {
    if n == 0 then 0
    else
      var r := writes[n - 1];
      BackBufferWrites(writes, phys, n - 1) + if r.TextureRef? && phys[r.texture].PhysicalBackBuffer? then 1 else 0
  }

  /** The image views of the owned images among the first `n` writes. */
  function ImageViewsWritten(writes: seq<ResourceRef>, phys: seq<PhysicalTexture>, n: nat): seq<ImageView>
    requires n <= |writes| && TexturesIn(writes, |phys|)
  {
    if n == 0 then []
    else
      var r := writes[n - 1];
      ImageViewsWritten(writes, phys, n - 1) +
        if r.TextureRef? && phys[r.texture].PhysicalImage? then [ImageViewOf(phys[r.texture].image)] else []
  }

  /** The framebuffer for swapchain image `i`: that image's view once per
      back-buffer write, then the owned images in write order. */
  function FramebufferFor(renderPass: Handle, writes: seq<ResourceRef>, phys: seq<PhysicalTexture>, i: nat): Framebuffer
    requires TexturesIn(writes, |phys|)
  {
    Framebuffer(renderPass, Repeat(SwapchainImageView(i), BackBufferWrites(writes, phys, |writes|)) +
                            ImageViewsWritten(writes, phys, |writes|))
  }

  /** None for a stage that writes nothing, else one per swapchain image. */
  function FramebuffersFor(renderPass: Handle, writes: seq<ResourceRef>, phys: seq<PhysicalTexture>, count: nat)
    : (fbs: seq<Framebuffer>)
    requires TexturesIn(writes, |phys|)
    ensures |fbs| == if writes == [] then 0 else count
    ensures forall i :: 0 <= i < |fbs| ==> fbs[i] == FramebufferFor(renderPass, writes, phys, i)
  {
    if writes == [] then [] else seq(count, (i: int) requires 0 <= i => FramebufferFor(renderPass, writes, phys, i))
  }

  /** Every written texture contributes exactly one framebuffer attachment. */
  lemma {:induction false} FramebufferAttachmentCount(writes: seq<ResourceRef>, phys: seq<PhysicalTexture>, n: nat)
    requires n <= |writes| && TexturesIn(writes, |phys|)
    ensures BackBufferWrites(writes, phys, n) + |ImageViewsWritten(writes, phys, n)| == |TexturesWritten(writes, n)|
  {
    if n > 0 {
      FramebufferAttachmentCount(writes, phys, n - 1);
    }
  }

  // ---------------------------------------------------------------- physical stages

  datatype PhysicalGraphicsStage = PhysicalGraphicsStage(
    renderPass: Handle,
    renderPassInfo: RenderPassInfo,
    pipelineLayout: Handle,
    layoutDesc: PipelineLayoutDesc,
    pipelineHandle: Handle,
    pipeline: GraphicsPipeline,
    framebuffers: seq<Framebuffer>)

  /** `p` is what compile builds for stage `st`, whatever handles the Vulkan
      objects got. */
  predicate PhysicalStageFor(p: PhysicalGraphicsStage, st: GraphicsStage, buffers: seq<BufferResource>,
                             textures: seq<TextureResource>, phys: seq<PhysicalTexture>, swapchainImageCount: nat,
                             extent: Extent2D)
    requires StageValid(st, |buffers|, |textures|) && |phys| == |textures|
  {
    && p.renderPass != NullHandle && p.pipelineLayout != NullHandle && p.pipelineHandle != NullHandle
    && p.renderPassInfo == RenderPassFor(st, textures)
    && p.layoutDesc == PipelineLayoutDesc(st.descriptorLayouts, st.pushConstantRanges)
    && VertexInputFor(st, buffers).Success?
    && p.pipeline == GraphicsPipeline(PipelineName,
                                      PipelineCreateInfoFor(st, VertexInputFor(st, buffers).value, p.pipelineLayout, extent))
    && p.framebuffers == FramebuffersFor(p.renderPass, st.writesTo, phys, swapchainImageCount)
  }

  /** Stack entry `j` has the physical stage compile builds for its stage. */
  predicate EntryBuilt(ps: map<nat, PhysicalGraphicsStage>, stages: seq<GraphicsStage>, buffers: seq<BufferResource>,
                       textures: seq<TextureResource>, phys: seq<PhysicalTexture>, swapchainImageCount: nat,
                       extent: Extent2D, stack: seq<nat>, j: nat)
    requires StagesValid(stages, |buffers|, |textures|) && |phys| == |textures|
    requires j < |stack| && stack[j] < |stages|
  {
    stack[j] in ps
    && PhysicalStageFor(ps[stack[j]], stages[stack[j]], buffers, textures, phys, swapchainImageCount, extent)
  }

  /** The first `k` stack entries all have the physical stage compile builds
      for them. */
  predicate StagesBuilt(ps: map<nat, PhysicalGraphicsStage>, stages: seq<GraphicsStage>, buffers: seq<BufferResource>,
                        textures: seq<TextureResource>, phys: seq<PhysicalTexture>, swapchainImageCount: nat,
                        extent: Extent2D, stack: seq<nat>, k: nat)
    requires StagesValid(stages, |buffers|, |textures|) && |phys| == |textures|
    requires k <= |stack| && forall j :: 0 <= j < |stack| ==> stack[j] < |stages|
  {
    forall j | 0 <= j < k :: EntryBuilt(ps, stages, buffers, textures, phys, swapchainImageCount, extent, stack, j)
  }

  /** Building stack entry `k` extends the built prefix by one: storing its
      physical stage keeps every earlier entry built, whether it names the
      same stage or another. */
  lemma StagesBuiltStep(ps: map<nat, PhysicalGraphicsStage>, stages: seq<GraphicsStage>,
                        buffers: seq<BufferResource>, textures: seq<TextureResource>,
                        phys: seq<PhysicalTexture>, swapchainImageCount: nat, extent: Extent2D,
                        stack: seq<nat>, k: nat, p: PhysicalGraphicsStage)
    requires StagesValid(stages, |buffers|, |textures|) && |phys| == |textures|
    requires k < |stack| && (forall j :: 0 <= j < |stack| ==> stack[j] < |stages|)
    requires StagesBuilt(ps, stages, buffers, textures, phys, swapchainImageCount, extent, stack, k)
    requires PhysicalStageFor(p, stages[stack[k]], buffers, textures, phys, swapchainImageCount, extent)
    ensures StagesBuilt(ps[stack[k] := p], stages, buffers, textures, phys, swapchainImageCount, extent, stack, k + 1)
  {
    var ps' := ps[stack[k] := p];
    forall j | 0 <= j < k + 1
      ensures EntryBuilt(ps', stages, buffers, textures, phys, swapchainImageCount, extent, stack, j)
    {
      if j < k && stack[j] != stack[k] {
        assert EntryBuilt(ps, stages, buffers, textures, phys, swapchainImageCount, extent, stack, j);
      }
    }
  }

  // ---------------------------------------------------------------- per frame

  /** The backing buffer a frame's upload leaves: a flagged buffer gets a new
      one of its data size (one more replacement), any other keeps its own. */
  function UpdatedBuffer(b: BufferResource, p: PhysicalBuffer, h: Handle): PhysicalBuffer {
    if b.dataUploadNeeded then PhysicalBuffer(Some(BufferAllocation(h, b.dataSize, UploadUsage(b.usage))), p.replacements + 1)
    else p
  }

  /** update_dynamic_buffers over every buffer; buffer `i` gets handle `base + i`. */
  function UpdatedBuffers(buffers: seq<BufferResource>, phys: seq<PhysicalBuffer>, base: Handle): (r: seq<PhysicalBuffer>)
    requires |phys| == |buffers|
    ensures |r| == |buffers|
    ensures forall i :: 0 <= i < |buffers| ==> r[i] == UpdatedBuffer(buffers[i], phys[i], base + i)
  {
    seq(|buffers|, i requires 0 <= i < |buffers| => UpdatedBuffer(buffers[i], phys[i], base + i))
  }

  function ClearedFlags(buffers: seq<BufferResource>): (r: seq<BufferResource>)
    ensures |r| == |buffers|
    ensures forall i :: 0 <= i < |buffers| ==> r[i] == buffers[i].(dataUploadNeeded := false)
  {
    seq(|buffers|, i requires 0 <= i < |buffers| => buffers[i].(dataUploadNeeded := false))
  }

  /** A frame replaces exactly the flagged buffers, each once, with a backing
      buffer of its data size and usage; the others are untouched. */
  lemma UploadOncePerFrame(buffers: seq<BufferResource>, phys: seq<PhysicalBuffer>, base: Handle, i: nat)
    requires |phys| == |buffers| && i < |buffers|
    ensures var r := UpdatedBuffers(buffers, phys, base)[i];
            && (buffers[i].dataUploadNeeded ==>
                  r.replacements == phys[i].replacements + 1 &&
                  r.buffer == Some(BufferAllocation(base + i, buffers[i].dataSize, UploadUsage(buffers[i].usage))))
            && (!buffers[i].dataUploadNeeded ==> r == phys[i])
  {
  }

  /** Once the flags are cleared, a second update in the same frame changes nothing. */
  lemma {:induction false} SecondUpdateChangesNothing(buffers: seq<BufferResource>, phys: seq<PhysicalBuffer>,
                                                      base: Handle, base2: Handle)
    requires |phys| == |buffers|
    ensures var cleared := ClearedFlags(buffers);
            var once := UpdatedBuffers(buffers, phys, base);
            UpdatedBuffers(cleared, once, base2) == once && ClearedFlags(cleared) == cleared
  {
    var cleared := ClearedFlags(buffers);
    var once := UpdatedBuffers(buffers, phys, base);
    assert UpdatedBuffers(cleared, once, base2) == once by {
      forall i | 0 <= i < |buffers| ensures UpdatedBuffers(cleared, once, base2)[i] == once[i] {
        assert !cleared[i].dataUploadNeeded;
      }
    }
  }

  /** The backing buffers of the reads with the given usage that have one, in read order. */
  function UploadedReads(st: GraphicsStage, buffers: seq<BufferResource>, phys: seq<PhysicalBuffer>, usage: BufferUsage,
                         n: nat): seq<Handle>
    requires n <= |st.readsFrom| && |phys| == |buffers| && BuffersIn(st.readsFrom, |buffers|)
  {
    if n == 0 then []
    else
      var r := st.readsFrom[n - 1];
      UploadedReads(st, buffers, phys, usage, n - 1) +
        if r.BufferRef? && phys[r.buffer].buffer.Some? && buffers[r.buffer].usage == usage
        then [phys[r.buffer].buffer.value.handle] else []
  }

  function IndexBinds(hs: seq<Handle>): (cs: seq<Command>)
    ensures |cs| == |hs| && forall k :: 0 <= k < |hs| ==> cs[k] == CmdBindIndexBuffer(hs[k], IndexTypeUint32, 0)
  {
    if hs == [] then [] else IndexBinds(hs[..|hs| - 1]) + [CmdBindIndexBuffer(hs[|hs| - 1], IndexTypeUint32, 0)]
  }

  /** What record_command_buffer emits for one stage, around the commands of
      the stage's own callback; None when there is no framebuffer for the
      image (`.at()` throws before anything is recorded). */
  function StageCommands(p: PhysicalGraphicsStage, st: GraphicsStage, buffers: seq<BufferResource>,
                         phys: seq<PhysicalBuffer>, imageIndex: nat, extent: Extent2D, user: seq<Command>)
    : Option<seq<Command>>
    requires |phys| == |buffers| && BuffersIn(st.readsFrom, |buffers|)
  {
    if imageIndex >= |p.framebuffers| then None
    else Some(StageOpening(p, st, buffers, phys, imageIndex, extent) + StageClosing(p.pipelineHandle, user))
  }

  /** The render pass begin on the image's framebuffer, an index-buffer bind
      per uploaded index buffer read, and one bind of all uploaded vertex
      buffers read, if there are any. */
  function StageOpening(p: PhysicalGraphicsStage, st: GraphicsStage, buffers: seq<BufferResource>,
                        phys: seq<PhysicalBuffer>, imageIndex: nat, extent: Extent2D): seq<Command>
    requires |phys| == |buffers| && BuffersIn(st.readsFrom, |buffers|) && imageIndex < |p.framebuffers|
  {
    var vertexBuffers := UploadedReads(st, buffers, phys, VertexBuffer, |st.readsFrom|);
    [CmdBeginRenderPass(RenderPassBeginInfo(p.renderPass, p.framebuffers[imageIndex], extent, 2), ContentsInline)]
    + IndexBinds(UploadedReads(st, buffers, phys, IndexBuffer, |st.readsFrom|))
    + (if vertexBuffers == [] then [] else [CmdBindVertexBuffers(vertexBuffers, 0, [])])
  }

  /** The pipeline bind, the stage's own commands, the end of the render
      pass and the barrier after it. */
  function StageClosing(pipelineHandle: Handle, user: seq<Command>): seq<Command> {
    [CmdBindPipeline(pipelineHandle, BindPointGraphics)] + user + [CmdEndRenderPass, CmdFullBarrier]
  }

  /** A bound buffer is one the stage reads, of the matching usage, with a
      backing buffer: uniform buffers and buffers never uploaded are not bound. */
  lemma {:induction false} UploadedReadsFacts(st: GraphicsStage, buffers: seq<BufferResource>, phys: seq<PhysicalBuffer>,
                                              usage: BufferUsage, n: nat, h: Handle)
    requires n <= |st.readsFrom| && |phys| == |buffers| && BuffersIn(st.readsFrom, |buffers|)
    ensures h in UploadedReads(st, buffers, phys, usage, n) <==>
      exists i :: 0 <= i < n && st.readsFrom[i].BufferRef? && buffers[st.readsFrom[i].buffer].usage == usage &&
                  phys[st.readsFrom[i].buffer].buffer.Some? &&
                  phys[st.readsFrom[i].buffer].buffer.value.handle == h
  {
    if n > 0 {
      UploadedReadsFacts(st, buffers, phys, usage, n - 1, h);
    }
  }

  /** The commands of one frame, and whether every stage could be recorded. */
  datatype FrameRecording = FrameRecording(commands: seq<Command>, completed: bool)

  /** Everything `render` needs that the graph holds after compile. */
  predicate Recordable(stages: seq<GraphicsStage>, buffers: seq<BufferResource>, phys: seq<PhysicalBuffer>,
                       physicalStages: map<nat, PhysicalGraphicsStage>, stack: seq<nat>)
  {
    && |phys| == |buffers|
    && (forall k :: 0 <= k < |stack| ==> stack[k] < |stages| && stack[k] in physicalStages)
    && ReadsValid(stages, |buffers|)
  }

  /** What stack entry `k` records: the commands of its stage around those
      of the stage's callback, or None without a framebuffer for the image. */
  function EntryCommands(stages: seq<GraphicsStage>, buffers: seq<BufferResource>, phys: seq<PhysicalBuffer>,
                         physicalStages: map<nat, PhysicalGraphicsStage>, stack: seq<nat>, imageIndex: nat,
                         extent: Extent2D, onRecord: (nat, PhysicalGraphicsStage) -> seq<Command>, k: nat)
    : Option<seq<Command>>
    requires k < |stack| && Recordable(stages, buffers, phys, physicalStages, stack)
  {
    var s := stack[k];
    assert BuffersIn(stages[s].readsFrom, |buffers|);
    StageCommands(physicalStages[s], stages[s], buffers, phys, imageIndex, extent, onRecord(s, physicalStages[s]))
  }

  /** The commands of one frame over the first `n` stack entries: each
      entry's commands are appended until the first stage without a
      framebuffer for the image, where recording stops. */
  function Recording(stages: seq<GraphicsStage>, buffers: seq<BufferResource>, phys: seq<PhysicalBuffer>,
                     physicalStages: map<nat, PhysicalGraphicsStage>, stack: seq<nat>, imageIndex: nat,
                     extent: Extent2D, onRecord: (nat, PhysicalGraphicsStage) -> seq<Command>, n: nat): FrameRecording
    requires n <= |stack| && Recordable(stages, buffers, phys, physicalStages, stack)
  {
    if n == 0 then FrameRecording([], true)
    else
      var prev := Recording(stages, buffers, phys, physicalStages, stack, imageIndex, extent, onRecord, n - 1);
      if !prev.completed then prev
      else
        match EntryCommands(stages, buffers, phys, physicalStages, stack, imageIndex, extent, onRecord, n - 1)
        case None => FrameRecording(prev.commands, false)
        case Some(cs) => FrameRecording(prev.commands + cs, true)
  }

  /** What each stack entry records, in stack order. */
  function FrameEntries(stages: seq<GraphicsStage>, buffers: seq<BufferResource>, phys: seq<PhysicalBuffer>,
                        physicalStages: map<nat, PhysicalGraphicsStage>, stack: seq<nat>, imageIndex: nat,
                        extent: Extent2D, onRecord: (nat, PhysicalGraphicsStage) -> seq<Command>)
    : (es: seq<Option<seq<Command>>>)
    requires Recordable(stages, buffers, phys, physicalStages, stack)
    ensures |es| == |stack|
    ensures forall k | 0 <= k < |stack| ::
              EntryMatches(es, stages, buffers, phys, physicalStages, stack, imageIndex, extent, onRecord, k)
  {
    seq(|stack|, k requires 0 <= k < |stack| =>
                   EntryCommands(stages, buffers, phys, physicalStages, stack, imageIndex, extent, onRecord, k))
  }

  /** `entries[k]` is what stack entry `k` records. */
  predicate EntryMatches(entries: seq<Option<seq<Command>>>, stages: seq<GraphicsStage>, buffers: seq<BufferResource>,
                         phys: seq<PhysicalBuffer>, physicalStages: map<nat, PhysicalGraphicsStage>, stack: seq<nat>,
                         imageIndex: nat, extent: Extent2D, onRecord: (nat, PhysicalGraphicsStage) -> seq<Command>,
                         k: nat)
    requires k < |entries| && k < |stack| && Recordable(stages, buffers, phys, physicalStages, stack)
  {
    entries[k] == EntryCommands(stages, buffers, phys, physicalStages, stack, imageIndex, extent, onRecord, k)
  }

  /** Recording the first `n` of the given entries in order: the commands of
      each are appended until the first that cannot be recorded, where
      recording stops. */
  function RecordEntries(entries: seq<Option<seq<Command>>>, n: nat): FrameRecording
    requires n <= |entries|
  {
    if n == 0 then FrameRecording([], true)
    else
      var prev := RecordEntries(entries, n - 1);
      if !prev.completed then prev
      else
        match entries[n - 1]
        case None => FrameRecording(prev.commands, false)
        case Some(cs) => FrameRecording(prev.commands + cs, true)
  }

  /** Once an entry could not be recorded, nothing more is recorded. */
  lemma {:induction false} RecordEntriesStops(entries: seq<Option<seq<Command>>>, i: nat, n: nat)
    requires i <= n <= |entries| && !RecordEntries(entries, i).completed
    ensures RecordEntries(entries, n) == RecordEntries(entries, i)
    decreases n - i
  {
    if i < n {
      RecordEntriesStops(entries, i, n - 1);
    }
  }

  /** Recording the frame is recording what each of its entries records. */
  lemma {:induction false} RecordingByEntries(stages: seq<GraphicsStage>, buffers: seq<BufferResource>,
                                              phys: seq<PhysicalBuffer>, physicalStages: map<nat, PhysicalGraphicsStage>,
                                              stack: seq<nat>, imageIndex: nat, extent: Extent2D,
                                              onRecord: (nat, PhysicalGraphicsStage) -> seq<Command>,
                                              entries: seq<Option<seq<Command>>>, n: nat)
    requires n <= |stack| == |entries| && Recordable(stages, buffers, phys, physicalStages, stack)
    requires forall k | 0 <= k < |stack| ::
               EntryMatches(entries, stages, buffers, phys, physicalStages, stack, imageIndex, extent, onRecord, k)
    ensures Recording(stages, buffers, phys, physicalStages, stack, imageIndex, extent, onRecord, n) ==
            RecordEntries(entries, n)
  {
    if n > 0 {
      RecordingByEntries(stages, buffers, phys, physicalStages, stack, imageIndex, extent, onRecord, entries, n - 1);
      assert EntryMatches(entries, stages, buffers, phys, physicalStages, stack, imageIndex, extent, onRecord, n - 1);
    }
  }

  /** An entry is recorded exactly when its stage has a framebuffer for the
      image, and then ends in a full barrier. */
  lemma EntryFacts(stages: seq<GraphicsStage>, buffers: seq<BufferResource>, phys: seq<PhysicalBuffer>,
                   physicalStages: map<nat, PhysicalGraphicsStage>, stack: seq<nat>, imageIndex: nat,
                   extent: Extent2D, onRecord: (nat, PhysicalGraphicsStage) -> seq<Command>, k: nat)
    requires k < |stack| && Recordable(stages, buffers, phys, physicalStages, stack)
    ensures var e := EntryCommands(stages, buffers, phys, physicalStages, stack, imageIndex, extent, onRecord, k);
            && (e.Some? <==> imageIndex < |physicalStages[stack[k]].framebuffers|)
            && (e.Some? ==> |e.value| >= 2 && e.value[|e.value| - 1] == CmdFullBarrier)
  {
    var s := stack[k];
    assert BuffersIn(stages[s].readsFrom, |buffers|);
    var p := physicalStages[s];
    if imageIndex < |p.framebuffers| {
      var opening := StageOpening(p, stages[s], buffers, phys, imageIndex, extent);
      var closing := StageClosing(p.pipelineHandle, onRecord(s, p));
      assert (opening + closing)[|opening + closing| - 1] == closing[|closing| - 1];
    }
  }

  /** A frame completes exactly when every stage on the stack has a
      framebuffer for the image. */
  lemma {:induction false} RecordingCompletes(stages: seq<GraphicsStage>, buffers: seq<BufferResource>,
                                              phys: seq<PhysicalBuffer>, physicalStages: map<nat, PhysicalGraphicsStage>,
                                              stack: seq<nat>, imageIndex: nat, extent: Extent2D,
                                              onRecord: (nat, PhysicalGraphicsStage) -> seq<Command>, n: nat)
    requires n <= |stack| && Recordable(stages, buffers, phys, physicalStages, stack)
    ensures Recording(stages, buffers, phys, physicalStages, stack, imageIndex, extent, onRecord, n).completed <==>
      forall k :: 0 <= k < n ==> imageIndex < |physicalStages[stack[k]].framebuffers|
  {
    if n > 0 {
      RecordingCompletes(stages, buffers, phys, physicalStages, stack, imageIndex, extent, onRecord, n - 1);
      EntryFacts(stages, buffers, phys, physicalStages, stack, imageIndex, extent, onRecord, n - 1);
    }
  }

  /** A completed frame holds at least two commands per stage and ends in a
      full barrier. */
  lemma {:induction false} RecordingEndsInBarrier(stages: seq<GraphicsStage>, buffers: seq<BufferResource>,
                                                  phys: seq<PhysicalBuffer>,
                                                  physicalStages: map<nat, PhysicalGraphicsStage>,
                                                  stack: seq<nat>, imageIndex: nat, extent: Extent2D,
                                                  onRecord: (nat, PhysicalGraphicsStage) -> seq<Command>, n: nat)
    requires n <= |stack| && Recordable(stages, buffers, phys, physicalStages, stack)
    requires Recording(stages, buffers, phys, physicalStages, stack, imageIndex, extent, onRecord, n).completed
    ensures var cs := Recording(stages, buffers, phys, physicalStages, stack, imageIndex, extent, onRecord, n).commands;
            |cs| >= 2 * n && (n > 0 ==> cs[|cs| - 1] == CmdFullBarrier)
  {
    if n > 0 {
      RecordingEndsInBarrier(stages, buffers, phys, physicalStages, stack, imageIndex, extent, onRecord, n - 1);
      EntryFacts(stages, buffers, phys, physicalStages, stack, imageIndex, extent, onRecord, n - 1);
    }
  }
}
