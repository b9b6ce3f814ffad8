/**
 * Mesh.cpp: a mesh copies its vertex and index lists into two immutable GPU
 * buffers once, remembers the two counts, and draws itself with one indexed
 * draw call. The device and context calls are modelled as a buffer
 * description plus its initial contents, and as a list of input-assembler
 * commands that `Replay` interprets.
 */
module Meshes {
  import opened Math3D
  import opened Wrappers

  /** Vertex.h: position, UV, normal and tangent, eleven 4-byte floats. */
  datatype Vertex = Vertex(position: Vec3, uv: Vec2, normal: Vec3, tangent: Vec3)

  const VertexBytes: nat := 4 * (3 + 2 + 3 + 3)
  const IndexBytes: nat := 4

  /** D3D11_BUFFER_DESC's ByteWidth is a 32-bit UINT. */
  const UintRange: int := 0x1_0000_0000

  datatype Usage = Default | Immutable | Dynamic | Staging
  datatype BindFlag = BindVertexBuffer | BindIndexBuffer
  datatype IndexFormat = R32Uint

  datatype BufferDesc = BufferDesc(
    usage: Usage, byteWidth: nat, bindFlags: BindFlag,
    cpuAccessFlags: nat, miscFlags: nat, structureByteStride: nat)

  /** A vertex buffer and the vertices it was created with. */
  datatype VertexBuffer = VertexBuffer(desc: BufferDesc, vertices: seq<Vertex>)

  /** An index buffer and the 32-bit unsigned indices the GPU reads from it. */
  datatype IndexBuffer = IndexBuffer(desc: BufferDesc, indices: seq<nat>)

  /** `sizeof(T) * count` stored in a UINT: the product wraps modulo 2^32. */
  function ByteWidth(elementBytes: nat, count: int): (w: nat)
    ensures w < UintRange
    ensures 0 <= elementBytes * count < UintRange ==> w == elementBytes * count
  {
    (elementBytes * count) % UintRange
  }

  /** An `int` index read by the GPU as R32_UINT: its two's-complement bit pattern. */
  function AsUint(i: int): (u: nat)
    ensures u < UintRange
    ensures 0 <= i < UintRange ==> u == i
    ensures -UintRange <= i < 0 ==> u == i + UintRange
  {
    i % UintRange
  }

  function AsUints(s: seq<int>): (r: seq<nat>)
    ensures |r| == |s|
    ensures forall k :: 0 <= k < |s| ==> r[k] == AsUint(s[k])
  {
    if |s| == 0 then [] else [AsUint(s[0])] + AsUints(s[1..])
  }

  /** Input-assembler and draw commands `Mesh::Draw` issues. */
  datatype Command =
    | SetVertexBuffer(slot: nat, vertices: VertexBuffer, stride: nat, offset: nat)
    | SetIndexBuffer(indices: IndexBuffer, format: IndexFormat, offset: nat)
    | DrawIndexed(indexCount: nat, startIndexLocation: nat, baseVertexLocation: int)

  /** The input-assembler bindings that matter to a draw. */
  datatype Bindings = Bindings(
    vertexBuffer: Option<VertexBuffer>, stride: nat,
    indexBuffer: Option<IndexBuffer>)

  /** A draw call as the GPU sees it: the bound buffers and the index range. */
  datatype DrawCall = DrawCall(
    vertexBuffer: VertexBuffer, stride: nat, indexBuffer: IndexBuffer,
    indexCount: nat, startIndex: nat, baseVertex: int)

  /**
   * Runs commands against the bindings, collecting the draws. A draw issued
   * while a buffer is unbound draws nothing.
   */
  function Replay(b: Bindings, cmds: seq<Command>): (r: (Bindings, seq<DrawCall>))
    ensures |r.1| <= |cmds|
    decreases |cmds|
  {
    if |cmds| == 0 then (b, [])
    else
      var (b', draws) :=
        match cmds[0]
        case SetVertexBuffer(slot, buffer, stride, _) =>
          (if slot == 0 then b.(vertexBuffer := Some(buffer), stride := stride) else b, [])
        case SetIndexBuffer(buffer, _, _) => (b.(indexBuffer := Some(buffer)), [])
        case DrawIndexed(count, start, base) =>
          if b.vertexBuffer.Some? && b.indexBuffer.Some? then
            (b, [DrawCall(b.vertexBuffer.value, b.stride, b.indexBuffer.value, count, start, base)])
          else (b, []);
      var rest := Replay(b', cmds[1..]);
      (rest.0, draws + rest.1)
  }

  /** The vertices a draw assembles: the k-th is the one the k-th index names. */
  function Fetched(d: DrawCall): (vs: Option<seq<Vertex>>)
    ensures vs.Some? ==> |vs.value| == d.indexCount
  {
    if d.startIndex + d.indexCount <= |d.indexBuffer.indices|
       && forall k :: d.startIndex <= k < d.startIndex + d.indexCount ==>
            0 <= d.indexBuffer.indices[k] + d.baseVertex < |d.vertexBuffer.vertices|
    then Some(seq(d.indexCount, k requires 0 <= k < d.indexCount =>
                  d.vertexBuffer.vertices[d.indexBuffer.indices[d.startIndex + k] + d.baseVertex]))
    else None
  }

  class Mesh {
    const vertexCount: int
    const indexCount: int
    const vertexBuffer: VertexBuffer
    const indexBuffer: IndexBuffer

    /**
     * Mesh(vertexList, vertexCount, indexList, indexCount): both buffers are
     * immutable, invisible to the CPU, and sized `sizeof(element) * count`.
     */
    constructor (vertexList: seq<Vertex>, vertexCount: int, indexList: seq<int>, indexCount: int)
      requires 0 <= vertexCount <= |vertexList| && 0 <= indexCount <= |indexList|
      ensures this.vertexCount == vertexCount && this.indexCount == indexCount
      ensures vertexBuffer.desc == BufferDesc(Immutable, ByteWidth(VertexBytes, vertexCount), BindVertexBuffer, 0, 0, 0)
      ensures indexBuffer.desc == BufferDesc(Immutable, ByteWidth(IndexBytes, indexCount), BindIndexBuffer, 0, 0, 0)
      ensures vertexBuffer.vertices == vertexList[..vertexCount]
      ensures indexBuffer.indices == AsUints(indexList[..indexCount])
      ensures Valid()
    {
      this.vertexCount := vertexCount;
      this.indexCount := indexCount;
      var vbd := BufferDesc(Immutable, ByteWidth(VertexBytes, vertexCount), BindVertexBuffer, 0, 0, 0);
      vertexBuffer := VertexBuffer(vbd, vertexList[..vertexCount]);
      var ibd := BufferDesc(Immutable, ByteWidth(IndexBytes, indexCount), BindIndexBuffer, 0, 0, 0);
      indexBuffer := IndexBuffer(ibd, AsUints(indexList[..indexCount]));
    }

    /** The buffers as the constructor left them: immutable and holding the counted data. */
    ghost predicate Valid() {
      && 0 <= vertexCount == |vertexBuffer.vertices|
      && 0 <= indexCount == |indexBuffer.indices|
      && vertexBuffer.desc.usage == Immutable && indexBuffer.desc.usage == Immutable
      && vertexBuffer.desc.cpuAccessFlags == 0 && indexBuffer.desc.cpuAccessFlags == 0
    }

    function GetIndexCount(): (n: int)
      ensures n == indexCount
    {
      indexCount
    }

    function GetVertextCount(): (n: int)
      ensures n == vertexCount
    {
      vertexCount
    }

    /**
     * Binds the vertex buffer to slot 0 with a stride of one Vertex, the index
     * buffer as 32-bit unsigned indices, and draws every index once.
     */
    method Draw() returns (cmds: seq<Command>)
      requires Valid()
      ensures cmds == [SetVertexBuffer(0, vertexBuffer, VertexBytes, 0),
                       SetIndexBuffer(indexBuffer, R32Uint, 0),
                       DrawIndexed(indexCount as nat, 0, 0)]
      ensures forall b :: Replay(b, cmds).1 == [DrawCall(vertexBuffer, VertexBytes, indexBuffer, indexCount as nat, 0, 0)]
    {
      var stride := VertexBytes;
      var offset := 0;
      cmds := [SetVertexBuffer(0, vertexBuffer, stride, offset)];
      cmds := cmds + [SetIndexBuffer(indexBuffer, R32Uint, 0)];
      cmds := cmds + [DrawIndexed(GetIndexCount() as nat, 0, 0)];
      forall b ensures Replay(b, cmds).1 == [DrawCall(vertexBuffer, VertexBytes, indexBuffer, indexCount as nat, 0, 0)] {
        ReplayDrawSequence(b, vertexBuffer, indexBuffer, indexCount as nat);
      }
    }
  }

  /** Binding both buffers and then drawing yields exactly one draw, of the buffers just bound. */
  lemma ReplayDrawSequence(b: Bindings, vb: VertexBuffer, ib: IndexBuffer, count: nat)
    ensures Replay(b, [SetVertexBuffer(0, vb, VertexBytes, 0), SetIndexBuffer(ib, R32Uint, 0), DrawIndexed(count, 0, 0)]).1
            == [DrawCall(vb, VertexBytes, ib, count, 0, 0)]
  {
    var cmds := [SetVertexBuffer(0, vb, VertexBytes, 0), SetIndexBuffer(ib, R32Uint, 0), DrawIndexed(count, 0, 0)];
    var b1 := b.(vertexBuffer := Some(vb), stride := VertexBytes);
    var b2 := b1.(indexBuffer := Some(ib));
    assert cmds[1..] == [SetIndexBuffer(ib, R32Uint, 0), DrawIndexed(count, 0, 0)];
    assert cmds[1..][1..] == [DrawIndexed(count, 0, 0)];
    assert Replay(b2, [DrawIndexed(count, 0, 0)]).1 == [DrawCall(vb, VertexBytes, ib, count, 0, 0)];
  }

  /**
   * A mesh under 2^32 bytes built from in-range, non-negative indices draws, in order, the
   * vertex each of its first `indexCount` indices names, and no other.
   */
  lemma MeshDrawFetchesIndexedVertices(vertexList: seq<Vertex>, vertexCount: nat, indexList: seq<int>, indexCount: nat)
    requires vertexCount <= |vertexList| && indexCount <= |indexList|
    requires VertexBytes * vertexCount < UintRange
    requires forall k :: 0 <= k < indexCount ==> 0 <= indexList[k] < vertexCount
    ensures
      var d := DrawCall(VertexBuffer(BufferDesc(Immutable, ByteWidth(VertexBytes, vertexCount), BindVertexBuffer, 0, 0, 0), vertexList[..vertexCount]),
                    VertexBytes,
                    IndexBuffer(BufferDesc(Immutable, ByteWidth(IndexBytes, indexCount), BindIndexBuffer, 0, 0, 0), AsUints(indexList[..indexCount])),
                    indexCount, 0, 0);
      Fetched(d) == Some(seq(indexCount, k requires 0 <= k < indexCount => vertexList[indexList[k]]))
  {
    var vertices := vertexList[..vertexCount];
    var indices := AsUints(indexList[..indexCount]);
    forall k | 0 <= k < indexCount
      ensures indices[k] == indexList[k] && 0 <= indices[k] < |vertices|
      ensures vertices[indices[k]] == vertexList[indexList[k]]
    {
      assert indexList[..indexCount][k] == indexList[k];
    }
    var d := DrawCall(VertexBuffer(BufferDesc(Immutable, ByteWidth(VertexBytes, vertexCount), BindVertexBuffer, 0, 0, 0), vertices),
                      VertexBytes,
                      IndexBuffer(BufferDesc(Immutable, ByteWidth(IndexBytes, indexCount), BindIndexBuffer, 0, 0, 0), indices),
                      indexCount, 0, 0);
    assert Fetched(d).Some?;
    assert Fetched(d).value == seq(indexCount, k requires 0 <= k < indexCount => vertexList[indexList[k]]);
  }

  /** Byte widths are exact (no UINT wrap-around) for any mesh below 2^32 bytes. */
  lemma ByteWidthsExact(vertexCount: nat, indexCount: nat)
    requires VertexBytes * vertexCount < UintRange && IndexBytes * indexCount < UintRange
    ensures ByteWidth(VertexBytes, vertexCount) == 44 * vertexCount
    ensures ByteWidth(IndexBytes, indexCount) == 4 * indexCount
  {
  }
}
