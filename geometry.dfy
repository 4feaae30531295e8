/** The quad's interleaved vertex table and how the two vertex attributes read it
    (MultiTexture.js, initVertexBuffers). The numbers are table data, written
    as exact reals; no floating-point computation is modelled. */
module Geometry {

  /** Float32Array.BYTES_PER_ELEMENT: attribute strides and offsets are in bytes. */
  const FloatSize: nat := 4

  /** Per vertex: position x, y, then texture coordinate s, t. */
  const VerticesTexCoords: seq<real> := [
    -0.5,  0.5, 0.0, 1.0,
    -0.5, -0.5, 0.0, 0.0,
     0.5,  0.5, 1.0, 1.0,
     0.5, -0.5, 1.0, 0.0
  ]

  /** The number of vertices initVertexBuffers reports and the draw call uses. */
  const VertexCount: nat := 4

  /** Floats per vertex in the interleaved table. */
  const FloatsPerVertex: nat := 4

  /** How a vertex attribute is read from the bound buffer: `size` floats per
      vertex, starting `offsetBytes` into the buffer, one vertex every
      `strideBytes` bytes. */
  datatype AttribPointer = AttribPointer(size: nat, strideBytes: nat, offsetBytes: nat)

  /** vertexAttribPointer(a_Position, 2, FLOAT, false, FSIZE * 4, 0). */
  const PositionPointer := AttribPointer(2, FloatSize * 4, 0)

  /** vertexAttribPointer(a_TexCoord, 2, FLOAT, false, FSIZE * 4, FSIZE * 2). */
  const TexCoordPointer := AttribPointer(2, FloatSize * 4, FloatSize * 2)

  /** Index of the first float that `p` reads for vertex `i`. */
  function FirstFloat(p: AttribPointer, i: nat): nat
  {
    (p.offsetBytes + i * p.strideBytes) / FloatSize
  }

  /** Float-aligned pointer whose reads for vertex `i` stay inside `data`. */
  predicate Readable(data: seq<real>, p: AttribPointer, i: nat)
  {
    p.offsetBytes % FloatSize == 0 && p.strideBytes % FloatSize == 0 &&
    FirstFloat(p, i) + p.size <= |data|
  }

  /** The attribute value that vertex `i` receives through pointer `p`. */
  function Fetch(data: seq<real>, p: AttribPointer, i: nat): (r: seq<real>)
    requires Readable(data, p, i)
    ensures |r| == p.size
    ensures forall c :: 0 <= c < p.size ==>
              r[c] == data[(p.offsetBytes + i * p.strideBytes) / FloatSize + c]
  {
    data[FirstFloat(p, i)..FirstFloat(p, i) + p.size]
  }

  /** The table holds exactly VertexCount vertices of FloatsPerVertex floats,
      both pointers stay inside it for every vertex, and for vertex `i` the
      position is the first two floats of row `i` and the texture coordinate
      the last two: together they read the whole row and never overlap. */
  lemma AttributeLayout(i: nat)
    requires i < VertexCount
    ensures |VerticesTexCoords| == VertexCount * FloatsPerVertex
    ensures PositionPointer.strideBytes == FloatsPerVertex * FloatSize
    ensures Readable(VerticesTexCoords, PositionPointer, i)
    ensures Readable(VerticesTexCoords, TexCoordPointer, i)
    ensures FirstFloat(PositionPointer, i) == FloatsPerVertex * i
    ensures FirstFloat(TexCoordPointer, i) == FloatsPerVertex * i + 2
    ensures Fetch(VerticesTexCoords, PositionPointer, i) + Fetch(VerticesTexCoords, TexCoordPointer, i)
            == VerticesTexCoords[FloatsPerVertex * i..FloatsPerVertex * (i + 1)]
  {
    var row := VerticesTexCoords[FloatsPerVertex * i..FloatsPerVertex * (i + 1)];
    var pos := Fetch(VerticesTexCoords, PositionPointer, i);
    var tex := Fetch(VerticesTexCoords, TexCoordPointer, i);
    assert |pos + tex| == |row| == 4;
    forall c | 0 <= c < 4 ensures (pos + tex)[c] == row[c] {
      if c < 2 { assert (pos + tex)[c] == pos[c]; } else { assert (pos + tex)[c] == tex[c - 2]; }
    }
  }

  /** Position of vertex `i`, as the vertex shader's a_Position receives it. */
  function Position(i: nat): (p: (real, real))
    requires i < VertexCount
  {
    AttributeLayout(i);
    var r := Fetch(VerticesTexCoords, PositionPointer, i);
    (r[0], r[1])
  }

  /** Texture coordinate of vertex `i`, as a_TexCoord receives it. */
  function TexCoord(i: nat): (t: (real, real))
    requires i < VertexCount
  {
    AttributeLayout(i);
    var r := Fetch(VerticesTexCoords, TexCoordPointer, i);
    (r[0], r[1])
  }

  /** The four vertices as a_Position and a_TexCoord receive them, in strip order. */
  lemma VertexValues()
    ensures Position(0) == (-0.5,  0.5) && TexCoord(0) == (0.0, 1.0)
    ensures Position(1) == (-0.5, -0.5) && TexCoord(1) == (0.0, 0.0)
    ensures Position(2) == ( 0.5,  0.5) && TexCoord(2) == (1.0, 1.0)
    ensures Position(3) == ( 0.5, -0.5) && TexCoord(3) == (1.0, 0.0)
  {
    AttributeLayout(0);
    AttributeLayout(1);
    AttributeLayout(2);
    AttributeLayout(3);
  }

  /** The texture exactly covers the quad: every vertex's texture coordinate is
      its position shifted by (0.5, 0.5), so texture (0,0) sits at the
      bottom-left corner (-0.5,-0.5) and (1,1) at the top-right (0.5,0.5); the
      four positions are the four distinct corners of [-0.5, 0.5] squared. */
  lemma TextureCoversQuad(i: nat, j: nat)
    requires i < VertexCount && j < VertexCount
    ensures TexCoord(i).0 == Position(i).0 + 0.5 && TexCoord(i).1 == Position(i).1 + 0.5
    ensures Position(i).0 in {-0.5, 0.5} && Position(i).1 in {-0.5, 0.5}
    ensures Position(i) == Position(j) ==> i == j
    ensures TexCoord(i) == (0.0, 0.0) <==> Position(i) == (-0.5, -0.5)
    ensures TexCoord(i) == (1.0, 1.0) <==> Position(i) == (0.5, 0.5)
  {
    VertexValues();
  }

  /** In strip order, vertices 1 and 2 are the bottom-left and top-right
      corners, and vertices 0 and 3 are the other two corners. */
  lemma StripSharesDiagonal()
    ensures Position(1) == (-0.5, -0.5) && Position(2) == (0.5, 0.5)
    ensures {Position(0), Position(3)} == {(-0.5, 0.5), (0.5, -0.5)}
  {
    VertexValues();
  }
}
