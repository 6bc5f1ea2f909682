/** The ImGui renderer written against the newer render-graph interface: the
    update callback of its vertex buffer collects ImGui's index and vertex
    chunks, the update callback of its index buffer requests the collected
    indices, and its record callback binds its resources and draws every
    ImGui draw command. The update requests and binds go into logs; the
    graph behind them is not part of this model. */
module ImGuiRenderers {
  import opened Vk
  import opened Wrappers
  import opened Commands
  import opened ImGuiDraw

  /** No draw data, or nothing to draw: the update callback does nothing. */
  predicate NothingToDraw(drawData: Option<DrawData>) {
    drawData.None? || drawData.value.totalIdxCount == 0 || drawData.value.totalVtxCount == 0
  }

  /** The binds the record callback issues before looking at the draw data. */
  function ImGuiBinds(pipeline: Handle, pipelineLayout: Handle, vertexBuffer: Handle, indexBuffer: Handle,
                      descriptorSet: Handle, pushConstants: Handle): seq<Command>
  {
    [CmdBindPipeline(pipeline, BindPointGraphics),
     CmdBindVertexBuffers([vertexBuffer], 0, []),
     CmdBindIndexBuffer(indexBuffer, IndexTypeUint32, 0),
     CmdBindDescriptorSets([descriptorSet], pipelineLayout, BindPointGraphics, 0, []),
     CmdPushConstants(pipelineLayout, ShaderStageVertexBit, PushConstBlockSize, pushConstants)]
  }

  /** What the record callback records for the given draw data. */
  function ImGuiRecording(pipeline: Handle, pipelineLayout: Handle, vertexBuffer: Handle, indexBuffer: Handle,
                          descriptorSet: Handle, pushConstants: Handle, drawData: Option<DrawData>): (r: seq<Command>)
  {
    ImGuiBinds(pipeline, pipelineLayout, vertexBuffer, indexBuffer, descriptorSet, pushConstants)
      + (if drawData.None? then [] else DrawCommands(drawData.value.cmdLists))
  }

  /** The five binds come first whatever the draw data; without draw data
      nothing follows them, otherwise one draw per ImGui draw command. */
  lemma ImGuiRecordingShape(pipeline: Handle, pipelineLayout: Handle, vertexBuffer: Handle, indexBuffer: Handle,
                            descriptorSet: Handle, pushConstants: Handle, drawData: Option<DrawData>)
    ensures var r := ImGuiRecording(pipeline, pipelineLayout, vertexBuffer, indexBuffer, descriptorSet, pushConstants, drawData);
            && |r| == 5 + (if drawData.None? then 0 else CmdCount(drawData.value.cmdLists))
            && r[0] == CmdBindPipeline(pipeline, BindPointGraphics)
            && r[4] == CmdPushConstants(pipelineLayout, ShaderStageVertexBit, PushConstBlockSize, pushConstants)
            && forall k :: 5 <= k < |r| ==> r[k].CmdDrawIndexed? && r[k].instanceCount == 1
  {
    if drawData.Some? {
      var lists := drawData.value.cmdLists;
      DrawCommandsLength(lists);
      DrawsAreIndexed(lists);
    }
  }

  /** Every command of `DrawCommands` is an indexed draw of one instance. */
  lemma {:induction false} DrawsAreIndexed(lists: seq<DrawList>)
    ensures forall k :: 0 <= k < |DrawCommands(lists)| ==>
              DrawCommands(lists)[k].CmdDrawIndexed? && DrawCommands(lists)[k].instanceCount == 1
  {
    if |lists| > 0 {
      var n := |lists| - 1;
      DrawsAreIndexed(lists[..n]);
      ListDrawsAreIndexed(lists[n].cmdBuffer, ListsElemSum(lists[..n]), ListsVtxCount(lists[..n]));
    }
  }

  lemma {:induction false} ListDrawsAreIndexed(cmds: seq<DrawCmd>, indexBase: nat, vertexOffset: int)
    ensures forall k :: 0 <= k < |ListDraws(cmds, indexBase, vertexOffset)| ==>
              ListDraws(cmds, indexBase, vertexOffset)[k].CmdDrawIndexed?
              && ListDraws(cmds, indexBase, vertexOffset)[k].instanceCount == 1
  {
    if |cmds| > 0 {
      ListDrawsAreIndexed(cmds[..|cmds| - 1], indexBase, vertexOffset);
    }
  }

  /** The refill loop of the vertex buffer's update callback: every draw
      list's indices, then its vertices, appended in list order. */
  method CollectChunks(lists: seq<DrawList>) returns (indices: seq<nat>, vertices: seq<DrawVert>)
    ensures indices == Concat(IndexChunks(lists)) && vertices == Concat(VertexChunks(lists))
  {
    indices, vertices := [], [];
    var i := 0;
    while i < |lists|
      invariant 0 <= i <= |lists|
      invariant indices == Concat(IndexChunks(lists)[..i])
      invariant vertices == Concat(VertexChunks(lists)[..i])
    {
      indices := AppendAll(indices, lists[i].idxBuffer);
      vertices := AppendAll(vertices, lists[i].vtxBuffer);
      ConcatStep(IndexChunks(lists), i);
      ConcatStep(VertexChunks(lists), i);
      i := i + 1;
    }
    assert IndexChunks(lists)[..i] == IndexChunks(lists);
    assert VertexChunks(lists)[..i] == VertexChunks(lists);
  }

  class ImGuiRenderer {
    /** `m_index_data` and `m_vertex_data`. */
    var indexData: seq<nat>
    var vertexData: seq<DrawVert>
    /** The data handed to `request_update` of the vertex and the index
        buffer, one entry per call. */
    var vertexUpdateRequests: seq<seq<DrawVert>>
    var indexUpdateRequests: seq<seq<nat>>
    const pipeline: Handle
    const pipelineLayout: Handle
    const vertexBuffer: Handle
    const indexBuffer: Handle
    const descriptorSet: Handle
    const pushConstants: Handle

    constructor (pipeline: Handle, pipelineLayout: Handle, vertexBuffer: Handle, indexBuffer: Handle,
                 descriptorSet: Handle, pushConstants: Handle)
      ensures indexData == [] && vertexData == [] && vertexUpdateRequests == [] && indexUpdateRequests == []
      ensures this.pipeline == pipeline && this.pipelineLayout == pipelineLayout
      ensures this.vertexBuffer == vertexBuffer && this.indexBuffer == indexBuffer
      ensures this.descriptorSet == descriptorSet && this.pushConstants == pushConstants
    {
      this.pipeline, this.pipelineLayout := pipeline, pipelineLayout;
      this.vertexBuffer, this.indexBuffer := vertexBuffer, indexBuffer;
      this.descriptorSet, this.pushConstants := descriptorSet, pushConstants;
      indexData, vertexData := [], [];
      vertexUpdateRequests, indexUpdateRequests := [], [];
    }

    /** The vertex buffer's update callback, given what `ImGui::GetDrawData`
        returns after the user's update function ran. */
    method UpdateVertexBuffer(drawData: Option<DrawData>)
      modifies this`indexData, this`vertexData, this`vertexUpdateRequests
      ensures NothingToDraw(drawData) ==>
                indexData == old(indexData) && vertexData == old(vertexData)
                && vertexUpdateRequests == old(vertexUpdateRequests)
      ensures !NothingToDraw(drawData) ==>
                && indexData == Concat(IndexChunks(drawData.value.cmdLists))
                && vertexData == Concat(VertexChunks(drawData.value.cmdLists))
                && vertexUpdateRequests == old(vertexUpdateRequests) + [vertexData]
    {
      if drawData.None? || drawData.value.totalIdxCount == 0 || drawData.value.totalVtxCount == 0 {
        return;
      }
      // `m_index_data` and `m_vertex_data` are cleared and refilled.
      indexData, vertexData := CollectChunks(drawData.value.cmdLists);
      vertexUpdateRequests := vertexUpdateRequests + [vertexData];
    }

    /** The index buffer's update callback requests the collected indices on
        every call, fresh or not. */
    method UpdateIndexBuffer()
      modifies this`indexUpdateRequests
      ensures indexUpdateRequests == old(indexUpdateRequests) + [indexData]
    {
      indexUpdateRequests := indexUpdateRequests + [indexData];
    }

    /** The record callback: the binds, then nothing more without draw data,
        else the draw loop. All ImGui vertices must fit the `int32` vertex
        offset. */
    method RecordCommandBuffer(cb: CommandBuffer, drawData: Option<DrawData>)
      requires drawData.Some? ==> ListsVtxCount(drawData.value.cmdLists) <= MaxI32
      modifies cb
      ensures cb.log == old(cb.log) + ImGuiRecording(pipeline, pipelineLayout, vertexBuffer, indexBuffer,
                                                     descriptorSet, pushConstants, drawData)
    {
      var c := cb.BindPipeline(pipeline);
      c := c.BindVertexBuffers([vertexBuffer]);
      c := c.BindIndexBuffer(indexBuffer);
      c := c.BindDescriptorSets([descriptorSet], pipelineLayout);
      c.PushConstants(pipelineLayout, ShaderStageVertexBit, PushConstBlockSize, pushConstants);
      if drawData.None? {
        return;
      }
      RecordDraws(cb, drawData.value.cmdLists);
    }
  }
}
