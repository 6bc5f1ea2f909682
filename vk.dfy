/** The slice of the Vulkan vocabulary the renderer core uses. Vulkan objects
    are opaque handles; enumerations keep only the values the core names. */
module Vk {

  /** An opaque Vulkan handle. `NullHandle` stands for VK_NULL_HANDLE. */
  type Handle = nat

  const NullHandle: Handle := 0

  datatype Format =
    | Undefined
    | R32G32B32Sfloat
    | R32G32Sfloat
    | R8G8B8A8Unorm
    | D32SfloatS8Uint
    | OtherFormat(code: nat)

  datatype AttachmentLoadOp = LoadOpLoad | LoadOpClear | LoadOpDontCare

  datatype AttachmentStoreOp = StoreOpStore | StoreOpDontCare

  datatype ImageLayout =
    | LayoutUndefined
    | ColorAttachmentOptimal
    | DepthStencilAttachmentOptimal
    | PresentSrc

  datatype ImageUsageFlags = ColorAttachmentUsage | DepthStencilAttachmentUsage

  datatype ImageAspectFlags = ColorAspect | DepthStencilAspect

  datatype VertexInputRate = InputRateVertex | InputRateInstance

  datatype IndexType = IndexTypeUint16 | IndexTypeUint32

  datatype PipelineBindPoint = BindPointGraphics | BindPointCompute

  datatype SubpassContents = ContentsInline | ContentsSecondaryCommandBuffers

  datatype PrimitiveTopology = PointList | LineList | TriangleList | TriangleStrip

  datatype PolygonMode = PolygonFill | PolygonLine | PolygonPoint

  datatype CullMode = CullNone | CullFront | CullBack | CullFrontAndBack

  datatype FrontFace = CounterClockwise | Clockwise

  datatype CompareOp = CompareNever | CompareLess | CompareLessOrEqual | CompareAlways

  datatype ShaderStageKind = VertexStage | FragmentStage | OtherStage(bits: nat)

  /** Which colour channels a blend attachment writes. */
  datatype ColorComponents = ColorComponents(r: bool, g: bool, b: bool, a: bool)

  const AllComponents := ColorComponents(true, true, true, true)

  const NoComponents := ColorComponents(false, false, false, false)

  datatype Extent2D = Extent2D(width: nat, height: nat)

  datatype Viewport = Viewport(x: int, y: int, width: nat, height: nat)

  datatype Rect2D = Rect2D(offsetX: int, offsetY: int, width: nat, height: nat)

  datatype VertexInputAttribute = VertexInputAttribute(location: nat, binding: nat, format: Format, offset: nat)

  datatype VertexInputBinding = VertexInputBinding(binding: nat, stride: nat, inputRate: VertexInputRate)

  datatype ShaderStage = ShaderStage(stage: ShaderStageKind, shaderModule: Handle, entryPoint: string)

  datatype PushConstantRange = PushConstantRange(stageFlags: nat, offset: nat, size: nat)

  /** The blend factors the renderer names; `BlendFactorZero` is the value
      of a zero-initialised VkBlendFactor. */
  datatype BlendFactor = BlendFactorZero | BlendFactorOne | BlendFactorSrcAlpha | BlendFactorOneMinusSrcAlpha

  /** `BlendOpAdd` is the value of a zero-initialised VkBlendOp. */
  datatype BlendOp = BlendOpAdd | BlendOpSubtract

  datatype ColorBlendAttachment = ColorBlendAttachment(
    blendEnable: bool,
    srcColorBlendFactor: BlendFactor,
    dstColorBlendFactor: BlendFactor,
    colorBlendOp: BlendOp,
    srcAlphaBlendFactor: BlendFactor,
    dstAlphaBlendFactor: BlendFactor,
    alphaBlendOp: BlendOp,
    colorWriteMask: ColorComponents)

  /** A value-initialised VkPipelineColorBlendAttachmentState: every member zero. */
  const ZeroBlendAttachment := ColorBlendAttachment(false, BlendFactorZero, BlendFactorZero, BlendOpAdd,
                                                    BlendFactorZero, BlendFactorZero, BlendOpAdd, NoComponents)

  /** A view onto one swapchain image, or onto an image the render graph owns. */
  datatype ImageView = SwapchainImageView(index: nat) | ImageViewOf(image: Handle)

  datatype Framebuffer = Framebuffer(renderPass: Handle, attachments: seq<ImageView>)
}
