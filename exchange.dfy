/** The exchange adapter of cork/main.cpp: conversion between the structured
    mesh of the file layer (a sequence of vertices and a sequence of index
    triangles) and the flat record `CorkTriMesh` that crosses the library
    boundary (counts plus arrays indexed `3*i+k`). */
module CorkExchange {

  /** 2^32: the source's `uint` is an unsigned 32-bit integer. */
  const UintLimit: int := 0x1_0000_0000

  type uint32 = x: int | 0 <= x < 0x1_0000_0000

  /** A vertex coordinate, kept opaque: the file layer stores doubles and the
      flat record floats, and the narrowing between them is not modelled. */
  type Coord(0, ==)

  datatype Vec3 = Vec3(x: Coord, y: Coord, z: Coord)

  datatype FileVertex = FileVertex(pos: Vec3)

  /** Three indices into the vertex sequence. */
  datatype FileTriangle = FileTriangle(a: uint32, b: uint32, c: uint32)

  /** The structured mesh; `corktrimesh2file` resizes and overwrites its
      two vectors in place. */
  class FileMesh {
    var vertices: seq<FileVertex>
    var triangles: seq<FileTriangle>

    constructor ()
      ensures vertices == [] && triangles == []
    {
      vertices := [];
      triangles := [];
    }
  }

  /** The flat exchange record: slots `3*i`, `3*i+1`, `3*i+2` of `triangles`
      hold triangle `i`, and likewise for `vertices`. */
  class CorkTriMesh {
    var nTriangles: uint32
    var triangles: array<uint32>
    var nVertices: uint32
    var vertices: array<Coord>

    /** Each array holds three slots per element, and every slot index
        `3*i+k` is representable as a `uint`. */
    ghost predicate Valid()
      reads this
    {
      3 * nTriangles as int < UintLimit && 3 * nTriangles as int <= triangles.Length &&
      3 * nVertices as int < UintLimit && 3 * nVertices as int <= vertices.Length
    }

    constructor ()
      ensures Valid() && nTriangles == 0 && nVertices == 0
    {
      nTriangles, nVertices := 0, 0;
      triangles := new uint32[0];
      vertices := new Coord[0];
    }
  }

  // ---------------------------------------------------------------------
  // Specification of the flat layout

  /** The flat index array of a triangle sequence. */
  function FlattenTriangles(ts: seq<FileTriangle>): (flat: seq<uint32>)
    ensures |flat| == 3 * |ts|
  {
    if ts == [] then []
    else
      var t := ts[|ts| - 1];
      FlattenTriangles(ts[..|ts| - 1]) + [t.a, t.b, t.c]
  }

  /** The flat coordinate array of a vertex sequence. */
  function FlattenVertices(vs: seq<FileVertex>): (flat: seq<Coord>)
    ensures |flat| == 3 * |vs|
  {
    if vs == [] then []
    else
      var p := vs[|vs| - 1].pos;
      FlattenVertices(vs[..|vs| - 1]) + [p.x, p.y, p.z]
  }

  /** The first `n` triangles read back from a flat index array. */
  function UnflattenTriangles(flat: seq<uint32>, n: nat): (ts: seq<FileTriangle>)
    requires 3 * n <= |flat|
    ensures |ts| == n
  {
    if n == 0 then []
    else
      var k := 3 * (n - 1);
      UnflattenTriangles(flat, n - 1) + [FileTriangle(flat[k], flat[k + 1], flat[k + 2])]
  }

  /** The first `n` vertices read back from a flat coordinate array. */
  function UnflattenVertices(flat: seq<Coord>, n: nat): (vs: seq<FileVertex>)
    requires 3 * n <= |flat|
    ensures |vs| == n
  {
    if n == 0 then []
    else
      var k := 3 * (n - 1);
      UnflattenVertices(flat, n - 1) + [FileVertex(Vec3(flat[k], flat[k + 1], flat[k + 2]))]
  }

  /** `std::vector::resize`: keeps the first `n` elements and fills any new
      ones with the value-initialised element. */
  function Resize<T>(s: seq<T>, n: nat, fill: T): (r: seq<T>)
    ensures |r| == n
    ensures forall i :: 0 <= i < n && i < |s| ==> r[i] == s[i]
    ensures forall i :: |s| <= i < n ==> r[i] == fill
  {
    if n <= |s| then s[..n] else s + seq(n - |s|, _ => fill)
  }

  // ---------------------------------------------------------------------
  // Layout lemmas

  /** Slots `3i`, `3i+1`, `3i+2` of the flat array hold `a`, `b`, `c` of
      triangle `i`, in that order. */
  lemma {:induction false} FlattenTrianglesAt(ts: seq<FileTriangle>, i: nat)
    requires i < |ts|
    ensures FlattenTriangles(ts)[3 * i] == ts[i].a
    ensures FlattenTriangles(ts)[3 * i + 1] == ts[i].b
    ensures FlattenTriangles(ts)[3 * i + 2] == ts[i].c
  {
    var init := ts[..|ts| - 1];
    if i < |ts| - 1 {
      FlattenTrianglesAt(init, i);
      assert init[i] == ts[i];
    }
  }

  /** Slots `3i`, `3i+1`, `3i+2` of the flat array hold `x`, `y`, `z` of
      vertex `i`, in that order. */
  lemma {:induction false} FlattenVerticesAt(vs: seq<FileVertex>, i: nat)
    requires i < |vs|
    ensures FlattenVertices(vs)[3 * i] == vs[i].pos.x
    ensures FlattenVertices(vs)[3 * i + 1] == vs[i].pos.y
    ensures FlattenVertices(vs)[3 * i + 2] == vs[i].pos.z
  {
    var init := vs[..|vs| - 1];
    if i < |vs| - 1 {
      FlattenVerticesAt(init, i);
      assert init[i] == vs[i];
    }
  }

  /** Triangle `i` read back from the flat array takes `a`, `b`, `c` from
      slots `3i`, `3i+1`, `3i+2`. */
  lemma {:induction false} UnflattenTrianglesAt(flat: seq<uint32>, n: nat, i: nat)
    requires 3 * n <= |flat| && i < n
    ensures UnflattenTriangles(flat, n)[i] == FileTriangle(flat[3 * i], flat[3 * i + 1], flat[3 * i + 2])
  {
    if i < n - 1 {
      UnflattenTrianglesAt(flat, n - 1, i);
    }
  }

  /** Vertex `i` read back from the flat array takes `x`, `y`, `z` from
      slots `3i`, `3i+1`, `3i+2`. */
  lemma {:induction false} UnflattenVerticesAt(flat: seq<Coord>, n: nat, i: nat)
    requires 3 * n <= |flat| && i < n
    ensures UnflattenVertices(flat, n)[i] == FileVertex(Vec3(flat[3 * i], flat[3 * i + 1], flat[3 * i + 2]))
  {
    if i < n - 1 {
      UnflattenVerticesAt(flat, n - 1, i);
    }
  }

  /** Reading back a flattened triangle sequence gives the same triangles. */
  lemma {:induction false} UnflattenFlattenTriangles(ts: seq<FileTriangle>)
    ensures UnflattenTriangles(FlattenTriangles(ts), |ts|) == ts
  {
    var back := UnflattenTriangles(FlattenTriangles(ts), |ts|);
    forall i | 0 <= i < |ts| ensures back[i] == ts[i] {
      FlattenTrianglesAt(ts, i);
      UnflattenTrianglesAt(FlattenTriangles(ts), |ts|, i);
    }
  }

  /** Reading back a flattened vertex sequence gives the same vertices. */
  lemma {:induction false} UnflattenFlattenVertices(vs: seq<FileVertex>)
    ensures UnflattenVertices(FlattenVertices(vs), |vs|) == vs
  {
    var back := UnflattenVertices(FlattenVertices(vs), |vs|);
    forall i | 0 <= i < |vs| ensures back[i] == vs[i] {
      FlattenVerticesAt(vs, i);
      UnflattenVerticesAt(FlattenVertices(vs), |vs|, i);
    }
  }

  /** Flattening ends with the three slots of the last triangle. */
  lemma FlattenTrianglesSnoc(ts: seq<FileTriangle>, t: FileTriangle)
    ensures FlattenTriangles(ts + [t]) == FlattenTriangles(ts) + [t.a, t.b, t.c]
  {
  }

  /** Flattening ends with the three slots of the last vertex. */
  lemma FlattenVerticesSnoc(vs: seq<FileVertex>, v: FileVertex)
    ensures FlattenVertices(vs + [v]) == FlattenVertices(vs) + [v.pos.x, v.pos.y, v.pos.z]
  {
  }

  /** Flattening what was read back from the first `3n` slots restores those
      slots: the layout loses nothing in either direction. */
  lemma {:induction false} FlattenUnflattenTriangles(flat: seq<uint32>, n: nat)
    requires 3 * n <= |flat|
    ensures FlattenTriangles(UnflattenTriangles(flat, n)) == flat[..3 * n]
  {
    if n > 0 {
      var k := 3 * (n - 1);
      var t := FileTriangle(flat[k], flat[k + 1], flat[k + 2]);
      var init := UnflattenTriangles(flat, n - 1);
      calc {
        FlattenTriangles(UnflattenTriangles(flat, n));
        FlattenTriangles(init + [t]);
        { FlattenTrianglesSnoc(init, t); }
        FlattenTriangles(init) + [t.a, t.b, t.c];
        { FlattenUnflattenTriangles(flat, n - 1); }
        flat[..k] + [flat[k], flat[k + 1], flat[k + 2]];
        flat[..3 * n];
      }
    }
  }

  /** Flattening the vertices read back from the first `3n` slots restores
      those slots. */
  lemma {:induction false} FlattenUnflattenVertices(flat: seq<Coord>, n: nat)
    requires 3 * n <= |flat|
    ensures FlattenVertices(UnflattenVertices(flat, n)) == flat[..3 * n]
  {
    if n > 0 {
      var k := 3 * (n - 1);
      var v := FileVertex(Vec3(flat[k], flat[k + 1], flat[k + 2]));
      var init := UnflattenVertices(flat, n - 1);
      calc {
        FlattenVertices(UnflattenVertices(flat, n));
        FlattenVertices(init + [v]);
        { FlattenVerticesSnoc(init, v); }
        FlattenVertices(init) + [v.pos.x, v.pos.y, v.pos.z];
        { FlattenUnflattenVertices(flat, n - 1); }
        flat[..k] + [flat[k], flat[k + 1], flat[k + 2]];
        flat[..3 * n];
      }
    }
  }

  // ---------------------------------------------------------------------
  // The two conversions

  /** `file2corktrimesh`: sets both counts to the sequence lengths, allocates
      exactly three slots per element and fills them in order. */
  method File2CorkTriMesh(inp: FileMesh, out: CorkTriMesh)
    requires 3 * |inp.vertices| < UintLimit && 3 * |inp.triangles| < UintLimit
    modifies out
    ensures out.Valid()
    ensures out.nVertices as int == |inp.vertices| && out.nTriangles as int == |inp.triangles|
    ensures fresh(out.triangles) && fresh(out.vertices)
    ensures out.triangles[..] == FlattenTriangles(inp.triangles)
    ensures out.vertices[..] == FlattenVertices(inp.vertices)
  {
    out.nVertices := |inp.vertices| as uint32;
    out.nTriangles := |inp.triangles| as uint32;

    out.triangles := new uint32[out.nTriangles * 3];
    out.vertices := new Coord[out.nVertices * 3];

    FillTriangleSlots(out.triangles, inp.triangles);
    FillVertexSlots(out.vertices, inp.vertices);
  }

  /** The first loop of `file2corktrimesh`: slots `3i+0`, `3i+1`, `3i+2`
      receive `a`, `b`, `c` of triangle `i`; no slot outside the array is
      written. */
  method FillTriangleSlots(tris: array<uint32>, ts: seq<FileTriangle>)
    requires tris.Length == 3 * |ts| < UintLimit
    modifies tris
    ensures tris[..] == FlattenTriangles(ts)
  {
    ghost var flat := FlattenTriangles(ts);
    var n := |ts| as uint32;
    var i: uint32 := 0;
    while i < n
      invariant i <= n
      invariant forall j :: 0 <= j < 3 * i ==> tris[j] == flat[j]
    {
      FlattenTrianglesAt(ts, i as int);
      tris[3 * i + 0] := ts[i].a;
      tris[3 * i + 1] := ts[i].b;
      tris[3 * i + 2] := ts[i].c;
      i := i + 1;
    }
    assert tris[..] == flat;
  }

  /** The second loop of `file2corktrimesh`: slots `3i+0`, `3i+1`, `3i+2`
      receive `x`, `y`, `z` of vertex `i`; no slot outside the array is
      written. */
  method FillVertexSlots(verts: array<Coord>, vs: seq<FileVertex>)
    requires verts.Length == 3 * |vs| < UintLimit
    modifies verts
    ensures verts[..] == FlattenVertices(vs)
  {
    ghost var flat := FlattenVertices(vs);
    var n := |vs| as uint32;
    var i: uint32 := 0;
    while i < n
      invariant i <= n
      invariant forall j :: 0 <= j < 3 * i ==> verts[j] == flat[j]
    {
      FlattenVerticesAt(vs, i as int);
      verts[3 * i + 0] := vs[i].pos.x;
      verts[3 * i + 1] := vs[i].pos.y;
      verts[3 * i + 2] := vs[i].pos.z;
      i := i + 1;
    }
    assert verts[..] == flat;
  }

  /** `corktrimesh2file`: resizes both output sequences to the counts and
      sets element `i` from slots `3i..3i+2`, field by field. */
  method CorkTriMesh2File(inp: CorkTriMesh, out: FileMesh)
    requires inp.Valid()
    modifies out
    ensures out.triangles == UnflattenTriangles(inp.triangles[..], inp.nTriangles as int)
    ensures out.vertices == UnflattenVertices(inp.vertices[..], inp.nVertices as int)
  {
    var zero: Coord := *;
    out.vertices := Resize(out.vertices, inp.nVertices as int, FileVertex(Vec3(zero, zero, zero)));
    out.triangles := Resize(out.triangles, inp.nTriangles as int, FileTriangle(0, 0, 0));

    ghost var backT := UnflattenTriangles(inp.triangles[..], inp.nTriangles as int);
    ghost var backV := UnflattenVertices(inp.vertices[..], inp.nVertices as int);
    var i: uint32 := 0;
    while i < inp.nTriangles
      invariant i <= inp.nTriangles
      invariant |out.triangles| == inp.nTriangles as int
      invariant |out.vertices| == inp.nVertices as int
      invariant forall j :: 0 <= j < i ==> out.triangles[j] == backT[j]
    {
      UnflattenTrianglesAt(inp.triangles[..], inp.nTriangles as int, i as int);
      var t := out.triangles[i];
      t := t.(a := inp.triangles[3 * i + 0]);
      t := t.(b := inp.triangles[3 * i + 1]);
      t := t.(c := inp.triangles[3 * i + 2]);
      out.triangles := out.triangles[i := t];
      i := i + 1;
    }
    assert out.triangles == backT;

    i := 0;
    while i < inp.nVertices
      invariant i <= inp.nVertices
      invariant |out.vertices| == inp.nVertices as int
      invariant out.triangles == backT
      invariant forall j :: 0 <= j < i ==> out.vertices[j] == backV[j]
    {
      UnflattenVerticesAt(inp.vertices[..], inp.nVertices as int, i as int);
      var v := out.vertices[i];
      v := v.(pos := v.pos.(x := inp.vertices[3 * i + 0]));
      v := v.(pos := v.pos.(y := inp.vertices[3 * i + 1]));
      v := v.(pos := v.pos.(z := inp.vertices[3 * i + 2]));
      out.vertices := out.vertices[i := v];
      i := i + 1;
    }
    assert out.vertices == backV;
  }

  /** Converting a structured mesh to the flat record and back gives the
      same triangles and vertices. */
  method ExchangeRoundTrip(m: FileMesh) returns (back: FileMesh)
    requires 3 * |m.vertices| < UintLimit && 3 * |m.triangles| < UintLimit
    ensures back.triangles == m.triangles && back.vertices == m.vertices
  {
    var flat := new CorkTriMesh();
    File2CorkTriMesh(m, flat);
    back := new FileMesh();
    CorkTriMesh2File(flat, back);
    UnflattenFlattenTriangles(m.triangles);
    UnflattenFlattenVertices(m.vertices);
  }
}
