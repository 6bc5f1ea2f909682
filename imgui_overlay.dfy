/** The ImGui overlay written against the render graph of this model: its
    constructor declares an index buffer, a vertex buffer and a graphics
    stage drawing into the back buffer; its update callback re-collects
    ImGui's chunks when their size changed and uploads them; its record
    callback binds the descriptor sets and push constants and draws every
    ImGui draw command. */
module ImGuiOverlays {
  import opened Vk
  import opened Wrappers
  import opened Commands
  import opened RenderGraphOrder
  import opened RenderGraphModel
  import opened RenderGraphs
  import opened ImGuiDraw

  /** `sizeof(std::uint32_t)` and `sizeof(ImDrawVert)` (two `ImVec2` and a
      packed colour), the element sizes the uploads record. */
  const IndexSize: nat := 4
  const DrawVertSize: nat := 20

  /** The blend state the overlay asks for: blending on, colour blended by
      source alpha over one minus source alpha, alpha taken from the source,
      and all four colour components written. */
  const OverlayBlend := ColorBlendAttachment(true, BlendFactorSrcAlpha, BlendFactorOneMinusSrcAlpha, BlendOpAdd,
                                             BlendFactorOne, BlendFactorZero, BlendOpAdd, AllComponents)

  /** The overlay's stage as its constructor declares it: it writes the back
      buffer, reads the index buffer and then the vertex buffer, and never
      binds a buffer slot. */
  function OverlayStage(backBuffer: nat, indexBuffer: nat, vertexBuffer: nat, vertexShader: ShaderStage,
                        fragmentShader: ShaderStage, descriptorLayout: Handle, pushConstantStage: nat): (st: GraphicsStage)
    ensures st.writesTo == [TextureRef(backBuffer)]
    ensures st.readsFrom == [BufferRef(indexBuffer), BufferRef(vertexBuffer)]
    ensures st.bufferBindings == map[]
    ensures st.blendAttachment.blendEnable && st.blendAttachment.colorWriteMask == AllComponents
    ensures st.blendAttachment.srcColorBlendFactor == BlendFactorSrcAlpha
    ensures st.blendAttachment.dstColorBlendFactor == BlendFactorOneMinusSrcAlpha
    ensures st.blendAttachment.srcAlphaBlendFactor == BlendFactorOne
    ensures st.blendAttachment.dstAlphaBlendFactor == BlendFactorZero
    ensures st.blendAttachment.colorBlendOp == BlendOpAdd && st.blendAttachment.alphaBlendOp == BlendOpAdd
  {
    GraphicsStage("ImGui", [TextureRef(backBuffer)], [BufferRef(indexBuffer), BufferRef(vertexBuffer)], map[],
                  [vertexShader, fragmentShader], [descriptorLayout],
                  [PushConstantRange(pushConstantStage, 0, PushConstBlockSize)], false, false, false, OverlayBlend)
  }

  /** `upload_data` of a vector: the element size and byte size are
      recorded and the buffer is marked for upload. */
  function Uploaded(buffers: seq<BufferResource>, b: nat, elementSize: nat, count: nat): (r: seq<BufferResource>)
    requires b < |buffers|
    ensures |r| == |buffers| && r[b].dataUploadNeeded && r[b].dataSize == elementSize * count
    ensures forall k :: 0 <= k < |buffers| && k != b ==> r[k] == buffers[k]
  {
    buffers[b := buffers[b].(elementSize := elementSize, dataSize := elementSize * count, dataUploadNeeded := true)]
  }

  /** What the record callback records for the given draw data: nothing
      without draw data, else the descriptor sets, the push constants and one
      draw per ImGui draw command. */
  function OverlayRecording(descriptorSets: seq<Handle>, pushConstants: Handle, physical: PhysicalGraphicsStage,
                            drawData: Option<DrawData>): (r: seq<Command>)
    ensures drawData.None? ==> r == []
  {
    if drawData.None? then []
    else
      [CmdBindDescriptorSets(descriptorSets, physical.pipelineLayout, BindPointGraphics, 0, []),
       CmdPushConstants(physical.pipelineLayout, ShaderStageVertexBit, PushConstBlockSize, pushConstants)]
      + DrawCommands(drawData.value.cmdLists)
  }

  class ImGuiOverlay {
    const graph: RenderGraph
    const indexBuffer: nat
    const vertexBuffer: nat
    const stage: nat
    /** `m_index_data` and `m_vertex_data`. */
    var indexData: seq<nat>
    var vertexData: seq<DrawVert>
    const descriptorSets: seq<Handle>
    const pushConstants: Handle

    ghost predicate Valid()
      reads this, graph, graph.builder
    {
      && graph.Valid()
      && indexBuffer < |graph.buffers| && vertexBuffer < |graph.buffers| && stage < |graph.stages|
    }

    /** The declarations of the constructor. The vertex-input descriptions it
        also sets are not part of this graph's stage. */
    constructor (g: RenderGraph, backBuffer: nat, vertexShader: ShaderStage, fragmentShader: ShaderStage,
                 descriptorSets: seq<Handle>, descriptorLayout: Handle, pushConstants: Handle,
                 pushConstantStage: nat)
      requires g.Valid() && backBuffer < |g.textures|
      modifies g`buffers, g`stages
      ensures Valid() && graph == g && indexData == [] && vertexData == []
      ensures indexBuffer == |old(g.buffers)| && vertexBuffer == indexBuffer + 1 && stage == |old(g.stages)|
      ensures g.buffers == old(g.buffers) + [BufferResource("ImGui", IndexBuffer, [], 0, 0, false),
                                             BufferResource("ImGui", VertexBuffer, [], 0, 0, false)]
      ensures g.stages == old(g.stages) + [OverlayStage(backBuffer, indexBuffer, vertexBuffer, vertexShader,
                                                         fragmentShader, descriptorLayout, pushConstantStage)]
    {
      var ib := g.AddBuffer("ImGui", IndexBuffer);
      var vb := g.AddBuffer("ImGui", VertexBuffer);
      var s := g.AddStage("ImGui");
      ghost var base := old(g.stages);
      g.UsesShader(s, vertexShader);
      g.UsesShader(s, fragmentShader);
      g.SetBlendAttachment(s, OverlayBlend);
      g.WritesTo(s, TextureRef(backBuffer));
      g.ReadsFrom(s, BufferRef(ib));
      g.ReadsFrom(s, BufferRef(vb));
      g.AddDescriptorLayout(s, descriptorLayout);
      g.AddPushConstantRange(s, PushConstantRange(pushConstantStage, 0, PushConstBlockSize));
      assert g.stages[s] == OverlayStage(backBuffer, ib, vb, vertexShader, fragmentShader, descriptorLayout,
                                         pushConstantStage);
      assert g.stages[..s] == base;
      assert g.stages == g.stages[..s] + [g.stages[s]];
      graph, indexBuffer, vertexBuffer, stage := g, ib, vb, s;
      this.descriptorSets, this.pushConstants := descriptorSets, pushConstants;
      indexData, vertexData := [], [];
    }

    /** The update callback, given what `ImGui::GetDrawData` returns after
        the user's update function ran. Each array is rebuilt and uploaded
        only when its size differs from ImGui's total. */
    method OnUpdate(drawData: Option<DrawData>)
      requires Valid()
      modifies this`indexData, this`vertexData, graph`buffers
      ensures Valid()
      ensures drawData.None? || drawData.value.totalIdxCount == 0 || drawData.value.totalVtxCount == 0 ==>
                indexData == old(indexData) && vertexData == old(vertexData) && graph.buffers == old(graph.buffers)
      ensures drawData.Some? && drawData.value.totalIdxCount != 0 && drawData.value.totalVtxCount != 0 ==>
                var d := drawData.value;
                var reindex := |old(indexData)| != d.totalIdxCount;
                var revertex := |old(vertexData)| != d.totalVtxCount;
                var afterIndex := if reindex then Uploaded(old(graph.buffers), indexBuffer, IndexSize, |indexData|)
                                  else old(graph.buffers);
                && indexData == (if reindex then Concat(IndexChunks(d.cmdLists)) else old(indexData))
                && vertexData == (if revertex then Concat(VertexChunks(d.cmdLists)) else old(vertexData))
                && graph.buffers == (if revertex then Uploaded(afterIndex, vertexBuffer, DrawVertSize, |vertexData|)
                                     else afterIndex)
    {
      if drawData.None? || drawData.value.totalIdxCount == 0 || drawData.value.totalVtxCount == 0 {
        return;
      }
      var lists := drawData.value.cmdLists;
      if |indexData| != drawData.value.totalIdxCount {
        CollectIndices(lists);
        graph.UploadData(indexBuffer, IndexSize, |indexData|);
      }
      if |vertexData| != drawData.value.totalVtxCount {
        CollectVertices(lists);
        graph.UploadData(vertexBuffer, DrawVertSize, |vertexData|);
      }
    }

    /** `m_index_data.clear()` and the loop that refills it. */
    method CollectIndices(lists: seq<DrawList>)
      modifies this`indexData
      ensures indexData == Concat(IndexChunks(lists))
    {
      var data: seq<nat> := [];
      var i := 0;
      while i < |lists|
        invariant 0 <= i <= |lists|
        invariant data == Concat(IndexChunks(lists)[..i])
      {
        data := AppendAll(data, lists[i].idxBuffer);
        ConcatStep(IndexChunks(lists), i);
        i := i + 1;
      }
      assert IndexChunks(lists)[..i] == IndexChunks(lists);
      indexData := data;
    }

    /** `m_vertex_data.clear()` and the loop that refills it. */
    method CollectVertices(lists: seq<DrawList>)
      modifies this`vertexData
      ensures vertexData == Concat(VertexChunks(lists))
    {
      var data: seq<DrawVert> := [];
      var i := 0;
      while i < |lists|
        invariant 0 <= i <= |lists|
        invariant data == Concat(VertexChunks(lists)[..i])
      {
        data := AppendAll(data, lists[i].vtxBuffer);
        ConcatStep(VertexChunks(lists), i);
        i := i + 1;
      }
      assert VertexChunks(lists)[..i] == VertexChunks(lists);
      vertexData := data;
    }

    /** The record callback the graph calls between binding the pipeline
        and ending the render pass. All ImGui vertices must fit the `int32`
        vertex offset. */
    method OnRecord(physical: PhysicalGraphicsStage, cb: CommandBuffer, drawData: Option<DrawData>)
      requires drawData.Some? ==> ListsVtxCount(drawData.value.cmdLists) <= MaxI32
      modifies cb
      ensures cb.log == old(cb.log) + OverlayRecording(descriptorSets, pushConstants, physical, drawData)
    {
      if drawData.None? {
        return;
      }
      var c := cb.BindDescriptorSets(descriptorSets, physical.pipelineLayout);
      c.PushConstants(physical.pipelineLayout, ShaderStageVertexBit, PushConstBlockSize, pushConstants);
      RecordDraws(cb, drawData.value.cmdLists);
    }
  }

  /** With draw data, the recording is the two binds followed by exactly one
      indexed draw per ImGui draw command, at the prefix-sum offsets. */
  lemma OverlayRecordingDraws(descriptorSets: seq<Handle>, pushConstants: Handle, physical: PhysicalGraphicsStage,
                              d: DrawData, i: nat, j: nat)
    requires i < |d.cmdLists| && j < |d.cmdLists[i].cmdBuffer|
    ensures var r := OverlayRecording(descriptorSets, pushConstants, physical, Some(d));
            var lists := d.cmdLists;
            && |r| == 2 + CmdCount(lists)
            && 2 + CmdCount(lists[..i]) + j < |r|
            && r[2 + CmdCount(lists[..i]) + j]
               == CmdDrawIndexed(lists[i].cmdBuffer[j].elemCount, 1,
                                 IndexOffset(ListsElemSum(lists[..i]) + ElemSum(lists[i].cmdBuffer[..j])),
                                 ListsVtxCount(lists[..i]))
  {
    DrawCommandsAt(d.cmdLists, i, j);
  }
}
