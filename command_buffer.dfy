/** The command-recording wrapper. A Vulkan command buffer is modelled as an
    append-only log: every recording method appends exactly one command. */
module Commands {
  import opened Vk

  datatype RenderPassBeginInfo = RenderPassBeginInfo(
    renderPass: Handle,
    framebuffer: Framebuffer,
    renderArea: Extent2D,
    clearValueCount: nat)

  /** One recorded Vulkan command, carrying every argument of the call. */
  datatype Command =
    | CmdBegin(flags: nat)
    | CmdBeginRenderPass(info: RenderPassBeginInfo, contents: SubpassContents)
    | CmdBindDescriptorSets(sets: seq<Handle>, layout: Handle, bindPoint: PipelineBindPoint,
                            firstSet: nat, dynamicOffsets: seq<nat>)
    | CmdBindIndexBuffer(buffer: Handle, indexType: IndexType, offset: nat)
    | CmdBindPipeline(pipeline: Handle, bindPoint: PipelineBindPoint)
    | CmdBindVertexBuffers(buffers: seq<Handle>, firstBinding: nat, offsets: seq<nat>)
    | CmdPushConstants(layout: Handle, stageFlags: nat, size: nat, data: Handle)
    | CmdEnd
    | CmdDraw(vertexCount: nat)
    | CmdDrawIndexed(indexCount: nat, instanceCount: nat, firstIndex: nat, vertexOffset: int)
    | CmdEndRenderPass
    | CmdFullBarrier

  /** The wrapper around one VkCommandBuffer. The begin and bind methods
      return the buffer itself so that calls can be chained; the others return
      nothing. Default arguments are those of the C++ declarations. */
  class CommandBuffer {
    var log: seq<Command>

    constructor ()
      ensures log == []
    {
      log := [];
    }

    method BeginCommandBuffer(flags: nat := 0) returns (self: CommandBuffer)
      modifies this
      ensures self == this
      ensures log == old(log) + [CmdBegin(flags)]
    {
      log := log + [CmdBegin(flags)];
      self := this;
    }

    method BeginRenderPass(info: RenderPassBeginInfo, contents: SubpassContents := ContentsInline)
      returns (self: CommandBuffer)
      modifies this
      ensures self == this
      ensures log == old(log) + [CmdBeginRenderPass(info, contents)]
    {
      log := log + [CmdBeginRenderPass(info, contents)];
      self := this;
    }

    method BindDescriptorSets(sets: seq<Handle>, layout: Handle,
                              bindPoint: PipelineBindPoint := BindPointGraphics,
                              firstSet: nat := 0, dynamicOffsets: seq<nat> := [])
      returns (self: CommandBuffer)
      modifies this
      ensures self == this
      ensures log == old(log) + [CmdBindDescriptorSets(sets, layout, bindPoint, firstSet, dynamicOffsets)]
    {
      log := log + [CmdBindDescriptorSets(sets, layout, bindPoint, firstSet, dynamicOffsets)];
      self := this;
    }

    method BindIndexBuffer(buffer: Handle, indexType: IndexType := IndexTypeUint32, offset: nat := 0)
      returns (self: CommandBuffer)
      modifies this
      ensures self == this
      ensures log == old(log) + [CmdBindIndexBuffer(buffer, indexType, offset)]
    {
      log := log + [CmdBindIndexBuffer(buffer, indexType, offset)];
      self := this;
    }

    method BindPipeline(pipeline: Handle, bindPoint: PipelineBindPoint := BindPointGraphics)
      returns (self: CommandBuffer)
      modifies this
      ensures self == this
      ensures log == old(log) + [CmdBindPipeline(pipeline, bindPoint)]
    {
      log := log + [CmdBindPipeline(pipeline, bindPoint)];
      self := this;
    }

    method BindVertexBuffers(buffers: seq<Handle>, firstBinding: nat := 0, offsets: seq<nat> := [])
      returns (self: CommandBuffer)
      modifies this
      ensures self == this
      ensures log == old(log) + [CmdBindVertexBuffers(buffers, firstBinding, offsets)]
    {
      log := log + [CmdBindVertexBuffers(buffers, firstBinding, offsets)];
      self := this;
    }

    method PushConstants(layout: Handle, stageFlags: nat, size: nat, data: Handle)
      modifies this
      ensures log == old(log) + [CmdPushConstants(layout, stageFlags, size, data)]
    {
      log := log + [CmdPushConstants(layout, stageFlags, size, data)];
    }

    method End()
      modifies this
      ensures log == old(log) + [CmdEnd]
    {
      log := log + [CmdEnd];
    }

    method Draw(vertexCount: nat)
      modifies this
      ensures log == old(log) + [CmdDraw(vertexCount)]
    {
      log := log + [CmdDraw(vertexCount)];
    }

    method DrawIndexed(indexCount: nat, instanceCount: nat := 1, firstIndex: nat := 0, vertexOffset: int := 0)
      modifies this
      ensures log == old(log) + [CmdDrawIndexed(indexCount, instanceCount, firstIndex, vertexOffset)]
    {
      log := log + [CmdDrawIndexed(indexCount, instanceCount, firstIndex, vertexOffset)];
    }

    method EndRenderPass()
      modifies this
      ensures log == old(log) + [CmdEndRenderPass]
    {
      log := log + [CmdEndRenderPass];
    }

    /** A pipeline barrier over all stages and all memory accesses. */
    method FullBarrier()
      modifies this
      ensures log == old(log) + [CmdFullBarrier]
    {
      log := log + [CmdFullBarrier];
    }

    /** What a user-supplied recording callback emits, taken as given. */
    method RecordAll(commands: seq<Command>)
      modifies this
      ensures log == old(log) + commands
    {
      log := log + commands;
    }
  }

  /** Calls every method with only its mandatory arguments and chains the
      begin and bind calls: the log shows the default argument values. */
  method RecordWithDefaults(cb: CommandBuffer, info: RenderPassBeginInfo, sets: seq<Handle>, layout: Handle,
                            indexBuffer: Handle, pipeline: Handle, vertexBuffers: seq<Handle>)
    modifies cb
    ensures cb.log == old(cb.log) + [
      CmdBegin(0),
      CmdBeginRenderPass(info, ContentsInline),
      CmdBindDescriptorSets(sets, layout, BindPointGraphics, 0, []),
      CmdBindIndexBuffer(indexBuffer, IndexTypeUint32, 0),
      CmdBindPipeline(pipeline, BindPointGraphics),
      CmdBindVertexBuffers(vertexBuffers, 0, [])]
  {
    var c := cb.BeginCommandBuffer();
    c := c.BeginRenderPass(info);
    c := c.BindDescriptorSets(sets, layout);
    c := c.BindIndexBuffer(indexBuffer);
    c := c.BindPipeline(pipeline);
    c := c.BindVertexBuffers(vertexBuffers);
  }
}
