/** ImGui's draw data as both ImGui front ends see it: a list of command
    lists, each with its own chunk of indices, chunk of vertices and draw
    commands. The front ends flatten the chunks into one index and one vertex
    array and issue one indexed draw per draw command, at running offsets
    into those arrays. */
module ImGuiDraw {
  import opened Vk
  import opened Commands

  /** An `ImDrawVert`; its float position and uv and its packed colour are
      carried as opaque numbers. */
  datatype DrawVert = DrawVert(pos: nat, uv: nat, col: nat)

  /** An `ImDrawCmd`: the number of indices it draws. */
  datatype DrawCmd = DrawCmd(elemCount: nat)

  /** An `ImDrawList`: `IdxBuffer`, `VtxBuffer` and `CmdBuffer`. */
  datatype DrawList = DrawList(idxBuffer: seq<nat>, vtxBuffer: seq<DrawVert>, cmdBuffer: seq<DrawCmd>)

  /** `ImDrawData`: the command lists and ImGui's own totals. */
  datatype DrawData = DrawData(cmdLists: seq<DrawList>, totalIdxCount: nat, totalVtxCount: nat)

  /** `VK_SHADER_STAGE_VERTEX_BIT`. */
  const ShaderStageVertexBit: nat := 1

  /** `sizeof(PushConstBlock)`: the scale and translation `glm::vec2` of both front ends. */
  const PushConstBlockSize: nat := 16

  /** `std::numeric_limits<std::int32_t>::max()`. */
  const MaxI32: int := 0x7FFF_FFFF

  // ---------------------------------------------------------------- flattening

  /** The chunks one after the other. */
  function Concat<T>(chunks: seq<seq<T>>): seq<T>
  {
    if |chunks| == 0 then [] else Concat(chunks[..|chunks| - 1]) + chunks[|chunks| - 1]
  }

  function IndexChunks(lists: seq<DrawList>): (c: seq<seq<nat>>)
    ensures |c| == |lists| && forall i :: 0 <= i < |lists| ==> c[i] == lists[i].idxBuffer
  {
    seq(|lists|, i requires 0 <= i < |lists| => lists[i].idxBuffer)
  }

  function VertexChunks(lists: seq<DrawList>): (c: seq<seq<DrawVert>>)
    ensures |c| == |lists| && forall i :: 0 <= i < |lists| ==> c[i] == lists[i].vtxBuffer
  {
    seq(|lists|, i requires 0 <= i < |lists| => lists[i].vtxBuffer)
  }

  /** Every element of chunk `i` sits in the concatenation right after all
      elements of the chunks before `i`, and nothing else is there. */
  lemma {:induction false} ConcatAt<T>(chunks: seq<seq<T>>, i: nat, j: nat)
    requires i < |chunks| && j < |chunks[i]|
    ensures |Concat(chunks[..i])| + j < |Concat(chunks)|
    ensures Concat(chunks)[|Concat(chunks[..i])| + j] == chunks[i][j]
  {
    var n := |chunks| - 1;
    assert chunks[..n + 1] == chunks;
    if i == n {
    } else {
      assert chunks[..n][..i] == chunks[..i];
      ConcatAt(chunks[..n], i, j);
    }
  }

  /** One more chunk: the concatenation grows by exactly that chunk. */
  lemma ConcatStep<T>(chunks: seq<seq<T>>, i: nat)
    requires i < |chunks|
    ensures Concat(chunks[..i + 1]) == Concat(chunks[..i]) + chunks[i]
  {
    assert chunks[..i + 1][..i] == chunks[..i];
  }

  /** The inner `push_back` loops of the chunk collection: the elements of
      `chunk` appended one by one. */
  method AppendAll<T>(data: seq<T>, chunk: seq<T>) returns (r: seq<T>)
    ensures r == data + chunk
  {
    r := data;
    var j := 0;
    while j < |chunk|
      invariant 0 <= j <= |chunk|
      invariant r == data + chunk[..j]
    {
      assert chunk[..j + 1] == chunk[..j] + [chunk[j]];
      r := r + [chunk[j]];
      j := j + 1;
    }
    assert chunk[..j] == chunk;
  }

  // ---------------------------------------------------------------- draw commands

  /** The indices the given draw commands draw together. */
  function ElemSum(cmds: seq<DrawCmd>): nat
  {
    if |cmds| == 0 then 0 else ElemSum(cmds[..|cmds| - 1]) + cmds[|cmds| - 1].elemCount
  }

  /** The indices all draw commands of the given lists draw together. */
  function ListsElemSum(lists: seq<DrawList>): nat
  {
    if |lists| == 0 then 0 else ListsElemSum(lists[..|lists| - 1]) + ElemSum(lists[|lists| - 1].cmdBuffer)
  }

  /** The vertices of the given lists together. */
  function ListsVtxCount(lists: seq<DrawList>): nat
  {
    if |lists| == 0 then 0 else ListsVtxCount(lists[..|lists| - 1]) + |lists[|lists| - 1].vtxBuffer|
  }

  /** The draw commands of the given lists together. */
  function CmdCount(lists: seq<DrawList>): nat
  {
    if |lists| == 0 then 0 else CmdCount(lists[..|lists| - 1]) + |lists[|lists| - 1].cmdBuffer|
  }

  /** `index_offset` is a `std::uint32_t` and wraps around. */
  function IndexOffset(n: nat): nat {
    n % 0x1_0000_0000
  }

  /** The draws of one list whose first index is `indexBase` into the
      flattened index array and whose vertices start at `vertexOffset`. */
  function ListDraws(cmds: seq<DrawCmd>, indexBase: nat, vertexOffset: int): seq<Command>
  {
    if |cmds| == 0 then []
    else
      var k := |cmds| - 1;
      ListDraws(cmds[..k], indexBase, vertexOffset)
        + [CmdDrawIndexed(cmds[k].elemCount, 1, IndexOffset(indexBase + ElemSum(cmds[..k])), vertexOffset)]
  }

  /** The draws for all lists, in list order and draw-command order. */
  function DrawCommands(lists: seq<DrawList>): seq<Command>
  {
    if |lists| == 0 then []
    else
      var k := |lists| - 1;
      DrawCommands(lists[..k]) + ListDraws(lists[k].cmdBuffer, ListsElemSum(lists[..k]), ListsVtxCount(lists[..k]))
  }

  lemma {:induction false} ListDrawsAt(cmds: seq<DrawCmd>, indexBase: nat, vertexOffset: int, j: nat)
    requires j < |cmds|
    ensures |ListDraws(cmds, indexBase, vertexOffset)| == |cmds|
    ensures ListDraws(cmds, indexBase, vertexOffset)[j]
         == CmdDrawIndexed(cmds[j].elemCount, 1, IndexOffset(indexBase + ElemSum(cmds[..j])), vertexOffset)
  {
    var k := |cmds| - 1;
    if j < k {
      assert cmds[..k][..j] == cmds[..j];
      ListDrawsAt(cmds[..k], indexBase, vertexOffset, j);
    } else if k > 0 {
      ListDrawsAt(cmds[..k], indexBase, vertexOffset, 0);
    }
  }

  /** Exactly one draw per draw command, with instance count 1; the `j`-th
      command of list `i` is issued after the commands of the earlier lists,
      its first index is the number of indices drawn by every earlier draw
      command (modulo 2^32) and its vertex offset the number of vertices in
      the earlier lists. */
  lemma {:induction false} DrawCommandsAt(lists: seq<DrawList>, i: nat, j: nat)
    requires i < |lists| && j < |lists[i].cmdBuffer|
    ensures CmdCount(lists[..i]) + j < |DrawCommands(lists)| == CmdCount(lists)
    ensures DrawCommands(lists)[CmdCount(lists[..i]) + j]
         == CmdDrawIndexed(lists[i].cmdBuffer[j].elemCount, 1,
                           IndexOffset(ListsElemSum(lists[..i]) + ElemSum(lists[i].cmdBuffer[..j])),
                           ListsVtxCount(lists[..i]))
  {
    var k := |lists| - 1;
    var front := DrawCommands(lists[..k]);
    var last := ListDraws(lists[k].cmdBuffer, ListsElemSum(lists[..k]), ListsVtxCount(lists[..k]));
    assert DrawCommands(lists) == front + last;
    DrawCommandsLength(lists);
    DrawCommandsLength(lists[..k]);
    if i == k {
      ListDrawsAt(lists[k].cmdBuffer, ListsElemSum(lists[..k]), ListsVtxCount(lists[..k]), j);
      assert (front + last)[|front| + j] == last[j];
    } else {
      assert lists[..k][..i] == lists[..i];
      DrawCommandsAt(lists[..k], i, j);
      assert (front + last)[CmdCount(lists[..i]) + j] == front[CmdCount(lists[..i]) + j];
    }
  }

  lemma {:induction false} DrawCommandsLength(lists: seq<DrawList>)
    ensures |DrawCommands(lists)| == CmdCount(lists)
  {
    if |lists| > 0 {
      var k := |lists| - 1;
      DrawCommandsLength(lists[..k]);
      if |lists[k].cmdBuffer| > 0 {
        ListDrawsAt(lists[k].cmdBuffer, ListsElemSum(lists[..k]), ListsVtxCount(lists[..k]), 0);
      }
    }
  }

  /** The vertex count of a prefix of the lists never exceeds the whole, so
      under the `int32` requirement of `RecordDraws` every vertex offset it
      passes fits in an `int32`. */
  lemma {:induction false} ListsVtxCountGrows(lists: seq<DrawList>, i: nat)
    requires i <= |lists|
    ensures ListsVtxCount(lists[..i]) <= ListsVtxCount(lists)
    decreases |lists| - i
  {
    if i < |lists| {
      assert lists[..i + 1][..i] == lists[..i];
      ListsVtxCountGrows(lists, i + 1);
    } else {
      assert lists[..i] == lists;
    }
  }

  /** One more draw command of a list: one more draw and its indices. */
  lemma DrawStep(cmds: seq<DrawCmd>, j: nat, indexBase: nat, vertexOffset: int)
    requires j < |cmds|
    ensures ElemSum(cmds[..j + 1]) == ElemSum(cmds[..j]) + cmds[j].elemCount
    ensures ListDraws(cmds[..j + 1], indexBase, vertexOffset)
         == ListDraws(cmds[..j], indexBase, vertexOffset)
            + [CmdDrawIndexed(cmds[j].elemCount, 1, IndexOffset(indexBase + ElemSum(cmds[..j])), vertexOffset)]
  {
    assert cmds[..j + 1][..j] == cmds[..j];
  }

  /** One more list: its draws, indices and vertices follow those before it. */
  lemma ListStep(lists: seq<DrawList>, i: nat)
    requires i < |lists|
    ensures ListsElemSum(lists[..i + 1]) == ListsElemSum(lists[..i]) + ElemSum(lists[i].cmdBuffer)
    ensures ListsVtxCount(lists[..i + 1]) == ListsVtxCount(lists[..i]) + |lists[i].vtxBuffer|
    ensures DrawCommands(lists[..i + 1])
         == DrawCommands(lists[..i]) + ListDraws(lists[i].cmdBuffer, ListsElemSum(lists[..i]), ListsVtxCount(lists[..i]))
  {
    assert lists[..i + 1][..i] == lists[..i];
  }

  /** Adding to a wrapped `uint32` wraps the exact sum. */
  lemma IndexOffsetAdd(a: nat, e: nat)
    ensures IndexOffset(IndexOffset(a) + e) == IndexOffset(a + e)
  {
    var q := a / 0x1_0000_0000;
    assert a == q * 0x1_0000_0000 + IndexOffset(a);
    ModShift(q, IndexOffset(a) + e);
  }

  lemma {:induction false} ModShift(q: nat, x: nat)
    ensures (q * 0x1_0000_0000 + x) % 0x1_0000_0000 == x % 0x1_0000_0000
  {
    if q > 0 {
      ModShift(q - 1, x);
      assert q * 0x1_0000_0000 + x == ((q - 1) * 0x1_0000_0000 + x) + 0x1_0000_0000;
    }
  }

  /** The draw loop both front ends share: `index_offset` and
      `vertex_offset` start at zero, every draw command is drawn once at the
      current offsets, the index offset grows by each command's element count
      and the vertex offset by each list's vertex count. `vertex_offset` is a
      `std::int32_t`, whose overflow would be undefined, so the vertices of
      all lists together must fit in it. */
  method RecordDraws(cb: CommandBuffer, lists: seq<DrawList>)
    requires ListsVtxCount(lists) <= MaxI32
    modifies cb
    ensures cb.log == old(cb.log) + DrawCommands(lists)
  {
    var indexOffset: nat := 0;
    var vertexOffset: int := 0;
    var i := 0;
    while i < |lists|
      invariant 0 <= i <= |lists|
      invariant indexOffset == IndexOffset(ListsElemSum(lists[..i]))
      invariant vertexOffset == ListsVtxCount(lists[..i])
      invariant cb.log == old(cb.log) + DrawCommands(lists[..i])
    {
      ListStep(lists, i);
      indexOffset := RecordListDraws(cb, lists[i].cmdBuffer, ListsElemSum(lists[..i]), ListsElemSum(lists[..i + 1]),
                                     indexOffset, vertexOffset);
      vertexOffset := vertexOffset + |lists[i].vtxBuffer|;
      i := i + 1;
    }
    assert lists[..i] == lists;
  }

  /** The inner loop of the draw loop, over the draw commands of one list:
      it starts at the wrapped `index_offset` of `indexBase` indices and
      returns the wrapped offset of `indexEnd`, the count after the list's
      own indices. */
  method RecordListDraws(cb: CommandBuffer, cmds: seq<DrawCmd>, ghost indexBase: nat, ghost indexEnd: nat,
                         indexOffset: nat, vertexOffset: int)
    returns (nextIndexOffset: nat)
    requires indexOffset == IndexOffset(indexBase) && indexEnd == indexBase + ElemSum(cmds)
    modifies cb
    ensures nextIndexOffset == IndexOffset(indexEnd)
    ensures cb.log == old(cb.log) + ListDraws(cmds, indexBase, vertexOffset)
  {
    nextIndexOffset := indexOffset;
    var j := 0;
    while j < |cmds|
      invariant 0 <= j <= |cmds|
      invariant nextIndexOffset == IndexOffset(indexBase + ElemSum(cmds[..j]))
      invariant cb.log == old(cb.log) + ListDraws(cmds[..j], indexBase, vertexOffset)
    {
      DrawStep(cmds, j, indexBase, vertexOffset);
      IndexOffsetAdd(indexBase + ElemSum(cmds[..j]), cmds[j].elemCount);
      cb.DrawIndexed(cmds[j].elemCount, 1, nextIndexOffset, vertexOffset);
      nextIndexOffset := IndexOffset(nextIndexOffset + cmds[j].elemCount);
      j := j + 1;
    }
    assert cmds[..j] == cmds;
  }
}
