/** The graphics pipeline builder: a mutable record of pipeline state that
    the setters fill in, `Build` turns into a pipeline create-info, and
    `Reset` restores to its documented defaults. */
module PipelineBuilders {
  import opened Vk

  datatype VertexInputState = VertexInputState(
    bindingCount: nat, bindings: seq<VertexInputBinding>,
    attributeCount: nat, attributes: seq<VertexInputAttribute>)

  datatype InputAssemblyState = InputAssemblyState(topology: PrimitiveTopology, primitiveRestartEnable: bool)

  datatype TessellationState = TessellationState(patchControlPoints: nat)

  datatype ViewportState = ViewportState(
    viewportCount: nat, viewports: seq<Viewport>,
    scissorCount: nat, scissors: seq<Rect2D>)

  datatype RasterizationState = RasterizationState(
    polygonMode: PolygonMode, cullMode: CullMode, frontFace: FrontFace, lineWidth: real)

  datatype MultisampleState = MultisampleState(
    rasterizationSamples: nat, sampleShadingEnable: bool, minSampleShading: real)

  datatype DepthStencilState = DepthStencilState(
    depthTestEnable: bool, depthWriteEnable: bool, depthCompareOp: CompareOp)

  datatype ColorBlendState = ColorBlendState(attachmentCount: nat, attachments: seq<ColorBlendAttachment>)

  datatype DynamicState = DynamicViewport | DynamicScissor | OtherDynamicState(code: nat)

  datatype DynamicStateInfo = DynamicStateInfo(dynamicStateCount: nat, dynamicStates: seq<DynamicState>)

  /** The dynamic-rendering chain link of the pipeline create-info. */
  datatype PipelineRenderingInfo = PipelineRenderingInfo(
    colorAttachmentCount: nat, colorAttachmentFormats: seq<Format>,
    depthAttachmentFormat: Format, stencilAttachmentFormat: Format)

  datatype GraphicsPipelineCreateInfo = GraphicsPipelineCreateInfo(
    rendering: PipelineRenderingInfo,
    stageCount: nat, stages: seq<ShaderStage>,
    vertexInput: VertexInputState,
    inputAssembly: InputAssemblyState,
    tessellation: TessellationState,
    viewport: ViewportState,
    rasterization: RasterizationState,
    multisample: MultisampleState,
    depthStencil: DepthStencilState,
    colorBlend: ColorBlendState,
    dynamicState: DynamicStateInfo,
    layout: Handle,
    renderPass: Handle)

  /** A created pipeline: its debug name and the create-info it was made from. */
  datatype GraphicsPipeline = GraphicsPipeline(name: string, createInfo: GraphicsPipelineCreateInfo)

  // The zero-initialised create-infos (what make_info yields with no fields given).
  const EmptyVertexInput := VertexInputState(0, [], 0, [])
  const ZeroInputAssembly := InputAssemblyState(PointList, false)
  const ZeroTessellation := TessellationState(0)
  const EmptyViewportState := ViewportState(0, [], 0, [])
  const ZeroRasterization := RasterizationState(PolygonFill, CullNone, CounterClockwise, 0.0)
  const ZeroMultisample := MultisampleState(0, false, 0.0)
  const ZeroDepthStencil := DepthStencilState(false, false, CompareNever)
  const EmptyColorBlend := ColorBlendState(0, [])
  const EmptyDynamicStateInfo := DynamicStateInfo(0, [])
  const EmptyRendering := PipelineRenderingInfo(0, [], Undefined, Undefined)

  // The defaults reset() installs where they differ from zero.
  const DefaultInputAssembly := InputAssemblyState(TriangleList, false)
  const DefaultRasterization := RasterizationState(PolygonFill, CullBack, Clockwise, 1.0)
  const DefaultMultisample := MultisampleState(1, false, 1.0)

  /** Every field of the builder, as one value. */
  datatype BuilderState = BuilderState(
    shaderStages: seq<ShaderStage>,
    vertexInputBindings: seq<VertexInputBinding>,
    vertexInputAttributes: seq<VertexInputAttribute>,
    vertexInputSci: VertexInputState,
    inputAssemblySci: InputAssemblyState,
    tesselationSci: TessellationState,
    viewports: seq<Viewport>,
    scissors: seq<Rect2D>,
    viewportSci: ViewportState,
    rasterizationSci: RasterizationState,
    depthStencilSci: DepthStencilState,
    depthAttachmentFormat: Format,
    stencilAttachmentFormat: Format,
    colorAttachments: seq<Format>,
    pipelineRenderingCi: PipelineRenderingInfo,
    multisampleSci: MultisampleState,
    colorBlendSci: ColorBlendState,
    dynamicStates: seq<DynamicState>,
    dynamicStatesSci: DynamicStateInfo,
    pipelineLayout: Handle,
    colorBlendAttachmentStates: seq<ColorBlendAttachment>,
    pushConstantRanges: seq<PushConstantRange>,
    descriptorSetLayout: Handle,
    swapchainImgFormat: Format)

  /** The create-info build() hands to pipeline creation: the vertex input and
      viewport counts come from the vectors, the dynamic state is assembled
      only when there are dynamic states, there is one colour attachment in
      the swapchain format, and the render pass is null (dynamic rendering). */
  function CreateInfoFor(s: BuilderState): (ci: GraphicsPipelineCreateInfo)
    ensures ci.vertexInput.bindingCount == |s.vertexInputBindings| && ci.vertexInput.bindings == s.vertexInputBindings
    ensures ci.vertexInput.attributeCount == |s.vertexInputAttributes| && ci.vertexInput.attributes == s.vertexInputAttributes
    ensures ci.viewport.viewportCount == |s.viewports| && ci.viewport.viewports == s.viewports
    ensures ci.viewport.scissorCount == |s.scissors| && ci.viewport.scissors == s.scissors
    ensures s.dynamicStates != [] ==> ci.dynamicState == DynamicStateInfo(|s.dynamicStates|, s.dynamicStates)
    ensures s.dynamicStates == [] ==> ci.dynamicState == s.dynamicStatesSci
    ensures ci.rendering.colorAttachmentCount == 1 && ci.rendering.colorAttachmentFormats == [s.swapchainImgFormat]
    ensures ci.rendering.depthAttachmentFormat == s.depthAttachmentFormat
    ensures ci.rendering.stencilAttachmentFormat == s.stencilAttachmentFormat
    ensures ci.stageCount == |s.shaderStages| && ci.stages == s.shaderStages
    ensures ci.layout == s.pipelineLayout && ci.renderPass == NullHandle
  {
    GraphicsPipelineCreateInfo(
      PipelineRenderingInfo(1, [s.swapchainImgFormat], s.depthAttachmentFormat, s.stencilAttachmentFormat),
      |s.shaderStages|, s.shaderStages,
      VertexInputState(|s.vertexInputBindings|, s.vertexInputBindings,
                       |s.vertexInputAttributes|, s.vertexInputAttributes),
      s.inputAssemblySci,
      s.tesselationSci,
      ViewportState(|s.viewports|, s.viewports, |s.scissors|, s.scissors),
      s.rasterizationSci,
      s.multisampleSci,
      s.depthStencilSci,
      s.colorBlendSci,
      if s.dynamicStates != [] then DynamicStateInfo(|s.dynamicStates|, s.dynamicStates) else s.dynamicStatesSci,
      s.pipelineLayout,
      NullHandle)
  }

  /** What build() demands of the builder before it creates a pipeline. */
  predicate ReadyToBuild(s: BuilderState, name: string) {
    && name != ""
    && s.vertexInputBindings != [] && s.vertexInputAttributes != []
    && s.viewports != [] && s.scissors != []
    && s.pipelineLayout != NullHandle
  }

  class GraphicsPipelineBuilder {
    var shaderStages: seq<ShaderStage>
    var vertexInputBindings: seq<VertexInputBinding>
    var vertexInputAttributes: seq<VertexInputAttribute>
    var vertexInputSci: VertexInputState
    var inputAssemblySci: InputAssemblyState
    var tesselationSci: TessellationState
    var viewports: seq<Viewport>
    var scissors: seq<Rect2D>
    var viewportSci: ViewportState
    var rasterizationSci: RasterizationState
    var depthStencilSci: DepthStencilState
    var depthAttachmentFormat: Format
    var stencilAttachmentFormat: Format
    var colorAttachments: seq<Format>
    var pipelineRenderingCi: PipelineRenderingInfo
    var multisampleSci: MultisampleState
    var colorBlendSci: ColorBlendState
    var dynamicStates: seq<DynamicState>
    var dynamicStatesSci: DynamicStateInfo
    var pipelineLayout: Handle
    var colorBlendAttachmentStates: seq<ColorBlendAttachment>
    var pushConstantRanges: seq<PushConstantRange>
    var descriptorSetLayout: Handle
    var swapchainImgFormat: Format

    /** The fields reset() covers hold their documented defaults. */
    ghost predicate IsReset()
      reads this
    {
      && swapchainImgFormat == Undefined
      && depthAttachmentFormat == Undefined
      && stencilAttachmentFormat == Undefined
      && pipelineLayout == NullHandle
      && vertexInputBindings == [] && vertexInputAttributes == []
      && vertexInputSci == EmptyVertexInput
      && inputAssemblySci == DefaultInputAssembly
      && tesselationSci == ZeroTessellation
      && viewports == [] && scissors == []
      && viewportSci == EmptyViewportState
      && rasterizationSci == DefaultRasterization
      && multisampleSci == DefaultMultisample
      && depthStencilSci == ZeroDepthStencil
      && colorBlendSci == EmptyColorBlend
      && dynamicStates == [] && dynamicStatesSci == EmptyDynamicStateInfo
    }

    ghost function Snapshot(): BuilderState
      reads this
    {
      BuilderState(shaderStages, vertexInputBindings, vertexInputAttributes, vertexInputSci,
                   inputAssemblySci, tesselationSci, viewports, scissors, viewportSci,
                   rasterizationSci, depthStencilSci, depthAttachmentFormat, stencilAttachmentFormat,
                   colorAttachments, pipelineRenderingCi, multisampleSci, colorBlendSci,
                   dynamicStates, dynamicStatesSci, pipelineLayout, colorBlendAttachmentStates,
                   pushConstantRanges, descriptorSetLayout, swapchainImgFormat)
    }

    /** Every member starts value-initialised, then reset() installs the
        defaults; so every builder there is starts in reset state. */
    constructor ()
      ensures IsReset()
      ensures shaderStages == [] && colorAttachments == [] && colorBlendAttachmentStates == []
      ensures pushConstantRanges == [] && descriptorSetLayout == NullHandle
      ensures pipelineRenderingCi == EmptyRendering
    {
      shaderStages, vertexInputBindings, vertexInputAttributes := [], [], [];
      vertexInputSci, inputAssemblySci, tesselationSci := EmptyVertexInput, ZeroInputAssembly, ZeroTessellation;
      viewports, scissors, viewportSci := [], [], EmptyViewportState;
      rasterizationSci, depthStencilSci := ZeroRasterization, ZeroDepthStencil;
      depthAttachmentFormat, stencilAttachmentFormat, colorAttachments := Undefined, Undefined, [];
      pipelineRenderingCi, multisampleSci, colorBlendSci := EmptyRendering, ZeroMultisample, EmptyColorBlend;
      dynamicStates, dynamicStatesSci := [], EmptyDynamicStateInfo;
      pipelineLayout, colorBlendAttachmentStates := NullHandle, [];
      pushConstantRanges, descriptorSetLayout := [], NullHandle;
      swapchainImgFormat := Undefined;
      new;
      Reset();
    }

    /** The move constructor. It takes every field it names from `other`,
        takes the layout by exchange (leaving `other`'s null), and leaves the
        colour attachments, push-constant ranges and descriptor-set layout at
        their initial values. The seven vectors it moves are left empty in
        `other`, since this builder's own vectors start empty; the create-info
        structs are plain values, so moving them copies. The rasterization state is not taken from
        `other` at all, so nothing is promised about it. */
    constructor Move(other: GraphicsPipelineBuilder)
      modifies other
      ensures depthAttachmentFormat == old(other.depthAttachmentFormat)
      ensures stencilAttachmentFormat == old(other.stencilAttachmentFormat)
      ensures swapchainImgFormat == old(other.swapchainImgFormat)
      ensures pipelineRenderingCi == old(other.pipelineRenderingCi)
      ensures vertexInputSci == old(other.vertexInputSci)
      ensures inputAssemblySci == old(other.inputAssemblySci)
      ensures tesselationSci == old(other.tesselationSci)
      ensures viewportSci == old(other.viewportSci)
      ensures multisampleSci == old(other.multisampleSci)
      ensures depthStencilSci == old(other.depthStencilSci)
      ensures colorBlendSci == old(other.colorBlendSci)
      ensures dynamicStatesSci == old(other.dynamicStatesSci)
      ensures pipelineLayout == old(other.pipelineLayout) && other.pipelineLayout == NullHandle
      ensures dynamicStates == old(other.dynamicStates)
      ensures viewports == old(other.viewports) && scissors == old(other.scissors)
      ensures shaderStages == old(other.shaderStages)
      ensures vertexInputBindings == old(other.vertexInputBindings)
      ensures vertexInputAttributes == old(other.vertexInputAttributes)
      ensures colorBlendAttachmentStates == old(other.colorBlendAttachmentStates)
      ensures colorAttachments == [] && pushConstantRanges == [] && descriptorSetLayout == NullHandle
      ensures other.dynamicStates == [] && other.viewports == [] && other.scissors == []
      ensures other.shaderStages == [] && other.vertexInputBindings == [] && other.vertexInputAttributes == []
      ensures other.colorBlendAttachmentStates == []
      ensures other.Snapshot() == old(other.Snapshot()).(pipelineLayout := NullHandle, dynamicStates := [],
                                                          viewports := [], scissors := [], shaderStages := [],
                                                          vertexInputBindings := [], vertexInputAttributes := [],
                                                          colorBlendAttachmentStates := [])
    {
      depthAttachmentFormat := other.depthAttachmentFormat;
      stencilAttachmentFormat := other.stencilAttachmentFormat;
      swapchainImgFormat := other.swapchainImgFormat;
      pipelineRenderingCi := other.pipelineRenderingCi;
      vertexInputSci := other.vertexInputSci;
      inputAssemblySci := other.inputAssemblySci;
      tesselationSci := other.tesselationSci;
      viewportSci := other.viewportSci;
      rasterizationSci := ZeroRasterization;
      multisampleSci := other.multisampleSci;
      depthStencilSci := other.depthStencilSci;
      colorBlendSci := other.colorBlendSci;
      dynamicStatesSci := other.dynamicStatesSci;
      pipelineLayout := other.pipelineLayout;
      dynamicStates := other.dynamicStates;
      viewports := other.viewports;
      scissors := other.scissors;
      shaderStages := other.shaderStages;
      vertexInputBindings := other.vertexInputBindings;
      vertexInputAttributes := other.vertexInputAttributes;
      colorBlendAttachmentStates := other.colorBlendAttachmentStates;
      colorAttachments, pushConstantRanges, descriptorSetLayout := [], [], NullHandle;
      new;
      other.ReleaseMoved();
    }

    /** What a move leaves behind in the builder moved from: the layout
        exchanged for null and the seven moved vectors empty. */
    method ReleaseMoved()
      modifies this`pipelineLayout, this`dynamicStates, this`viewports, this`scissors, this`shaderStages,
               this`vertexInputBindings, this`vertexInputAttributes, this`colorBlendAttachmentStates
      ensures dynamicStates == [] && viewports == [] && scissors == []
      ensures shaderStages == [] && vertexInputBindings == [] && vertexInputAttributes == []
      ensures colorBlendAttachmentStates == [] && pipelineLayout == NullHandle
    {
      pipelineLayout := NullHandle;
      dynamicStates, viewports, scissors := [], [], [];
      shaderStages, vertexInputBindings, vertexInputAttributes := [], [], [];
      colorBlendAttachmentStates := [];
    }

    /** Restores the documented defaults and leaves every other field alone. */
    method Reset()
      modifies this
      ensures IsReset()
      ensures shaderStages == old(shaderStages) && colorAttachments == old(colorAttachments)
      ensures pipelineRenderingCi == old(pipelineRenderingCi)
      ensures colorBlendAttachmentStates == old(colorBlendAttachmentStates)
      ensures pushConstantRanges == old(pushConstantRanges) && descriptorSetLayout == old(descriptorSetLayout)
    {
      ResetFormatsAndLayout();
      ResetVertexInput();
      ResetViewportState();
      ResetFixedFunction();
      ResetDynamicState();
    }

    method ResetFormatsAndLayout()
      modifies this`swapchainImgFormat, this`depthAttachmentFormat, this`stencilAttachmentFormat, this`pipelineLayout
      ensures swapchainImgFormat == Undefined && depthAttachmentFormat == Undefined
      ensures stencilAttachmentFormat == Undefined && pipelineLayout == NullHandle
    {
      swapchainImgFormat, depthAttachmentFormat, stencilAttachmentFormat := Undefined, Undefined, Undefined;
      pipelineLayout := NullHandle;
    }

    method ResetVertexInput()
      modifies this`vertexInputBindings, this`vertexInputAttributes, this`vertexInputSci
      ensures vertexInputBindings == [] && vertexInputAttributes == [] && vertexInputSci == EmptyVertexInput
    {
      vertexInputBindings, vertexInputAttributes, vertexInputSci := [], [], EmptyVertexInput;
    }

    method ResetViewportState()
      modifies this`viewports, this`scissors, this`viewportSci
      ensures viewports == [] && scissors == [] && viewportSci == EmptyViewportState
    {
      viewports, scissors, viewportSci := [], [], EmptyViewportState;
    }

    method ResetFixedFunction()
      modifies this`inputAssemblySci, this`tesselationSci, this`rasterizationSci, this`multisampleSci,
               this`depthStencilSci, this`colorBlendSci
      ensures inputAssemblySci == DefaultInputAssembly && tesselationSci == ZeroTessellation
      ensures rasterizationSci == DefaultRasterization && multisampleSci == DefaultMultisample
      ensures depthStencilSci == ZeroDepthStencil && colorBlendSci == EmptyColorBlend
    {
      inputAssemblySci, tesselationSci := DefaultInputAssembly, ZeroTessellation;
      rasterizationSci, multisampleSci := DefaultRasterization, DefaultMultisample;
      depthStencilSci, colorBlendSci := ZeroDepthStencil, EmptyColorBlend;
    }

    method ResetDynamicState()
      modifies this`dynamicStates, this`dynamicStatesSci
      ensures dynamicStates == [] && dynamicStatesSci == EmptyDynamicStateInfo
    {
      dynamicStates, dynamicStatesSci := [], EmptyDynamicStateInfo;
    }

    /** Creates the pipeline from the current state and resets the builder.
        Of the create-infos build() writes, only the rendering info survives
        the reset. */
    method Build(name: string) returns (pipeline: GraphicsPipeline)
      requires ReadyToBuild(Snapshot(), name)
      modifies this
      ensures pipeline == GraphicsPipeline(name, CreateInfoFor(old(Snapshot())))
      ensures IsReset()
      ensures shaderStages == old(shaderStages) && colorAttachments == old(colorAttachments)
      ensures pipelineRenderingCi == pipeline.createInfo.rendering
      ensures colorBlendAttachmentStates == old(colorBlendAttachmentStates)
      ensures pushConstantRanges == old(pushConstantRanges) && descriptorSetLayout == old(descriptorSetLayout)
    {
      var ci := WriteCreateInfos();
      pipeline := GraphicsPipeline(name, ci);
      Reset();
    }

    /** The create-infos build() fills in from the builder's lists, and the
        pipeline create-info assembled from them. */
    method WriteCreateInfos() returns (ci: GraphicsPipelineCreateInfo)
      modifies this`vertexInputSci, this`viewportSci, this`dynamicStatesSci, this`pipelineRenderingCi
      ensures ci == CreateInfoFor(old(Snapshot())) && pipelineRenderingCi == ci.rendering
    {
      ghost var before := Snapshot();
      vertexInputSci := VertexInputState(|vertexInputBindings|, vertexInputBindings,
                                         |vertexInputAttributes|, vertexInputAttributes);
      viewportSci := ViewportState(|viewports|, viewports, |scissors|, scissors);
      if dynamicStates != [] {
        dynamicStatesSci := DynamicStateInfo(|dynamicStates|, dynamicStates);
      }
      pipelineRenderingCi := PipelineRenderingInfo(1, [swapchainImgFormat], depthAttachmentFormat, stencilAttachmentFormat);
      ci := GraphicsPipelineCreateInfo(
        pipelineRenderingCi, |shaderStages|, shaderStages, vertexInputSci, inputAssemblySci,
        tesselationSci, viewportSci, rasterizationSci, multisampleSci, depthStencilSci,
        colorBlendSci, dynamicStatesSci, pipelineLayout, NullHandle);
      assert ci == CreateInfoFor(before);
    }

    method AddColorAttachmentFormat(format: Format) returns (self: GraphicsPipelineBuilder)
      modifies this
      ensures self == this
      ensures Snapshot() == old(Snapshot()).(colorAttachments := old(colorAttachments) + [format])
    {
      colorAttachments := colorAttachments + [format];
      self := this;
    }

    method AddColorBlendAttachment(attachment: ColorBlendAttachment) returns (self: GraphicsPipelineBuilder)
      modifies this
      ensures self == this
      ensures Snapshot() == old(Snapshot()).(colorBlendAttachmentStates := old(colorBlendAttachmentStates) + [attachment])
    {
      colorBlendAttachmentStates := colorBlendAttachmentStates + [attachment];
      self := this;
    }

    method AddPushConstantRange(shaderStage: nat, size: nat, offset: nat := 0) returns (self: GraphicsPipelineBuilder)
      modifies this
      ensures self == this
      ensures Snapshot() == old(Snapshot()).(pushConstantRanges :=
        old(pushConstantRanges) + [PushConstantRange(shaderStage, offset, size)])
    {
      pushConstantRanges := pushConstantRanges + [PushConstantRange(shaderStage, offset, size)];
      self := this;
    }

    method AddShader(shader: ShaderStage) returns (self: GraphicsPipelineBuilder)
      modifies this
      ensures self == this
      ensures Snapshot() == old(Snapshot()).(shaderStages := old(shaderStages) + [shader])
    {
      shaderStages := shaderStages + [shader];
      self := this;
    }

    method SetShaders(shaders: seq<ShaderStage>) returns (self: GraphicsPipelineBuilder)
      modifies this
      ensures self == this
      ensures Snapshot() == old(Snapshot()).(shaderStages := shaders)
    {
      shaderStages := shaders;
      self := this;
    }

    method SetColorBlend(colorBlend: ColorBlendState) returns (self: GraphicsPipelineBuilder)
      modifies this
      ensures self == this
      ensures Snapshot() == old(Snapshot()).(colorBlendSci := colorBlend)
    {
      colorBlendSci := colorBlend;
      self := this;
    }

    method SetColorBlendAttachments(attachments: seq<ColorBlendAttachment>) returns (self: GraphicsPipelineBuilder)
      modifies this
      ensures self == this
      ensures Snapshot() == old(Snapshot()).(colorBlendAttachmentStates := attachments)
    {
      colorBlendAttachmentStates := attachments;
      self := this;
    }

    method SetDepthAttachmentFormat(format: Format) returns (self: GraphicsPipelineBuilder)
      modifies this
      ensures self == this
      ensures Snapshot() == old(Snapshot()).(depthAttachmentFormat := format)
    {
      depthAttachmentFormat := format;
      self := this;
    }

    method SetDescriptorSetLayout(layout: Handle) returns (self: GraphicsPipelineBuilder)
      modifies this
      ensures self == this
      ensures Snapshot() == old(Snapshot()).(descriptorSetLayout := layout)
    {
      descriptorSetLayout := layout;
      self := this;
    }

    method SetDepthStencil(depthStencil: DepthStencilState) returns (self: GraphicsPipelineBuilder)
      modifies this
      ensures self == this
      ensures Snapshot() == old(Snapshot()).(depthStencilSci := depthStencil)
    {
      depthStencilSci := depthStencil;
      self := this;
    }

    method SetDynamicStates(states: seq<DynamicState>) returns (self: GraphicsPipelineBuilder)
      modifies this
      ensures self == this
      ensures Snapshot() == old(Snapshot()).(dynamicStates := states)
    {
      dynamicStates := states;
      self := this;
    }

    method SetStencilAttachmentFormat(format: Format) returns (self: GraphicsPipelineBuilder)
      modifies this
      ensures self == this
      ensures Snapshot() == old(Snapshot()).(stencilAttachmentFormat := format)
    {
      stencilAttachmentFormat := format;
      self := this;
    }

    method SetInputAssembly(inputAssembly: InputAssemblyState) returns (self: GraphicsPipelineBuilder)
      modifies this
      ensures self == this
      ensures Snapshot() == old(Snapshot()).(inputAssemblySci := inputAssembly)
    {
      inputAssemblySci := inputAssembly;
      self := this;
    }

    method SetPipelineLayout(layout: Handle) returns (self: GraphicsPipelineBuilder)
      modifies this
      ensures self == this
      ensures Snapshot() == old(Snapshot()).(pipelineLayout := layout)
    {
      pipelineLayout := layout;
      self := this;
    }

    method SetPrimitiveTopology(topology: PrimitiveTopology) returns (self: GraphicsPipelineBuilder)
      modifies this
      ensures self == this
      ensures Snapshot() == old(Snapshot()).(inputAssemblySci := old(inputAssemblySci).(topology := topology))
    {
      inputAssemblySci := inputAssemblySci.(topology := topology);
      self := this;
    }

    method SetRasterization(rasterization: RasterizationState) returns (self: GraphicsPipelineBuilder)
      modifies this
      ensures self == this
      ensures Snapshot() == old(Snapshot()).(rasterizationSci := rasterization)
    {
      rasterizationSci := rasterization;
      self := this;
    }

    method SetScissor(scissor: Rect2D) returns (self: GraphicsPipelineBuilder)
      modifies this
      ensures self == this
      ensures Snapshot() == old(Snapshot()).(scissors := [scissor])
    {
      scissors := [scissor];
      self := this;
    }

    /** The extent overload: a scissor at the origin covering the extent. */
    method SetScissorExtent(extent: Extent2D) returns (self: GraphicsPipelineBuilder)
      modifies this
      ensures self == this
      ensures Snapshot() == old(Snapshot()).(scissors := [Rect2D(0, 0, extent.width, extent.height)])
    {
      self := SetScissor(Rect2D(0, 0, extent.width, extent.height));
    }

    method SetTesselationControlPointCount(controlPointCount: nat) returns (self: GraphicsPipelineBuilder)
      modifies this
      ensures self == this
      ensures Snapshot() == old(Snapshot()).(tesselationSci := TessellationState(controlPointCount))
    {
      tesselationSci := TessellationState(controlPointCount);
      self := this;
    }

    method SetVertexInputAttributes(descriptions: seq<VertexInputAttribute>) returns (self: GraphicsPipelineBuilder)
      modifies this
      ensures self == this
      ensures Snapshot() == old(Snapshot()).(vertexInputAttributes := descriptions)
    {
      vertexInputAttributes := descriptions;
      self := this;
    }

    method SetVertexInputBindings(descriptions: seq<VertexInputBinding>) returns (self: GraphicsPipelineBuilder)
      modifies this
      ensures self == this
      ensures Snapshot() == old(Snapshot()).(vertexInputBindings := descriptions)
    {
      vertexInputBindings := descriptions;
      self := this;
    }

    method SetViewport(viewport: Viewport) returns (self: GraphicsPipelineBuilder)
      modifies this
      ensures self == this
      ensures Snapshot() == old(Snapshot()).(viewports := [viewport])
    {
      viewports := [viewport];
      self := this;
    }

    /** The extent overload: a viewport at the origin covering the extent. */
    method SetViewportExtent(extent: Extent2D) returns (self: GraphicsPipelineBuilder)
      modifies this
      ensures self == this
      ensures Snapshot() == old(Snapshot()).(viewports := [Viewport(0, 0, extent.width, extent.height)])
    {
      self := SetViewport(Viewport(0, 0, extent.width, extent.height));
    }
  }

  /** Because build() ends in reset(), one builder can be reused: two
      builders in reset state that hold the same shader stages produce the
      same create-info. */
  lemma BuildsFromResetAgree(a: GraphicsPipelineBuilder, b: GraphicsPipelineBuilder)
    requires a.IsReset() && b.IsReset() && a.shaderStages == b.shaderStages
    ensures CreateInfoFor(a.Snapshot()) == CreateInfoFor(b.Snapshot())
  {
  }
}
