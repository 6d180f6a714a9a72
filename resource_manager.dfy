/** `Resources::CPU::LoadSponzaShape` (src/ResourceManager/ResourceManager.cpp): the meshes
    the OBJ loader produced, flattened into one shape per mesh with interleaved X, Y, Z
    components. The loader itself is outside the model: whether `LoadFile` succeeded and
    the meshes it loaded are inputs, and `F` stands for the `float` components. */
module ResourceManager {

  datatype Vec3<F> = Vec3(x: F, y: F, z: F)

  /** `objl::Vertex`, reduced to the fields the flattening reads. */
  datatype Vertex<F> = Vertex(position: Vec3<F>, normal: Vec3<F>)

  /** `objl::Mesh`: its name, vertices and index list. */
  datatype Mesh<F> = Mesh(meshName: string, vertices: seq<Vertex<F>>, indices: seq<nat>)

  /** `SponzaShape::Shape`. */
  datatype Shape<F> = Shape(positions: seq<F>, normals: seq<F>, indicies: seq<nat>, name: string)

  /** `SponzaShape`. */
  datatype SponzaShape<F> = SponzaShape(shapes: seq<Shape<F>>)

  /** The components of a sequence of vectors, three per vector in X, Y, Z order. */
  function Components<F>(vs: seq<Vec3<F>>): (flat: seq<F>)
    ensures |flat| == 3 * |vs|
    ensures forall j | 0 <= j < |vs| ::
      flat[3 * j] == vs[j].x && flat[3 * j + 1] == vs[j].y && flat[3 * j + 2] == vs[j].z
  {
    if |vs| == 0 then [] else
      var init := Components(vs[..|vs| - 1]);
      var last := vs[|vs| - 1];
      init + [last.x, last.y, last.z]
  }

  /** Reading a flat component list back three at a time, the way a vertex buffer of
      `float3` elements is read. */
  function Regroup<F>(flat: seq<F>): (vs: seq<Vec3<F>>)
    requires |flat| % 3 == 0
    ensures 3 * |vs| == |flat|
  {
    if |flat| == 0 then [] else
      var n := |flat|;
      Regroup(flat[..n - 3]) + [Vec3(flat[n - 3], flat[n - 2], flat[n - 1])]
  }

  /** The flattening loses nothing: regrouping the components gives back the vectors. */
  lemma {:induction false} RegroupComponents<F>(vs: seq<Vec3<F>>)
    ensures Regroup(Components(vs)) == vs
  {
    if |vs| > 0 {
      var init := vs[..|vs| - 1];
      var flat := Components(vs);
      assert flat[..|flat| - 3] == Components(init);
      RegroupComponents(init);
      assert vs == init + [vs[|vs| - 1]];
    }
  }

  function Positions<F>(vertices: seq<Vertex<F>>): (ps: seq<Vec3<F>>)
    ensures |ps| == |vertices| && forall j | 0 <= j < |vertices| :: ps[j] == vertices[j].position
  {
    seq(|vertices|, j requires 0 <= j < |vertices| => vertices[j].position)
  }

  function Normals<F>(vertices: seq<Vertex<F>>): (ns: seq<Vec3<F>>)
    ensures |ns| == |vertices| && forall j | 0 <= j < |vertices| :: ns[j] == vertices[j].normal
  {
    seq(|vertices|, j requires 0 <= j < |vertices| => vertices[j].normal)
  }

  /** The shape one mesh becomes. */
  function Flatten<F>(mesh: Mesh<F>): (shape: Shape<F>)
    ensures shape.name == mesh.meshName && shape.indicies == mesh.indices
    ensures |shape.positions| == 3 * |mesh.vertices| && |shape.normals| == 3 * |mesh.vertices|
    ensures forall j | 0 <= j < |mesh.vertices| ::
      shape.positions[3 * j .. 3 * j + 3] == [mesh.vertices[j].position.x, mesh.vertices[j].position.y, mesh.vertices[j].position.z]
    ensures forall j | 0 <= j < |mesh.vertices| ::
      shape.normals[3 * j .. 3 * j + 3] == [mesh.vertices[j].normal.x, mesh.vertices[j].normal.y, mesh.vertices[j].normal.z]
  {
    var shape := Shape(Components(Positions(mesh.vertices)), Components(Normals(mesh.vertices)), mesh.indices, mesh.meshName);
    assert forall j | 0 <= j < |mesh.vertices| ::
      shape.positions[3 * j .. 3 * j + 3] == [shape.positions[3 * j], shape.positions[3 * j + 1], shape.positions[3 * j + 2]];
    assert forall j | 0 <= j < |mesh.vertices| ::
      shape.normals[3 * j .. 3 * j + 3] == [shape.normals[3 * j], shape.normals[3 * j + 1], shape.normals[3 * j + 2]];
    shape
  }

  /** `LoadSponzaShape(sponza)`: the output is reset first; when the loader fails the result
      is false and there are no shapes, otherwise there is one shape per loaded mesh, in
      order, each the flattening of its mesh. */
  method LoadSponzaShape<F>(loadout: bool, loadedMeshes: seq<Mesh<F>>) returns (ok: bool, sponza: SponzaShape<F>)
    ensures ok == loadout
    ensures !ok ==> sponza.shapes == []
    ensures ok ==> |sponza.shapes| == |loadedMeshes|
    ensures ok ==> forall i | 0 <= i < |loadedMeshes| :: sponza.shapes[i] == Flatten(loadedMeshes[i])
  {
    sponza := SponzaShape([]);
    if loadout {
      var i := 0;
      while i < |loadedMeshes|
        invariant 0 <= i <= |loadedMeshes|
        invariant |sponza.shapes| == i
        invariant forall k | 0 <= k < i :: sponza.shapes[k] == Flatten(loadedMeshes[k])
      {
        var curShape := FlattenMesh(loadedMeshes[i]);
        sponza := SponzaShape(sponza.shapes + [curShape]);
        i := i + 1;
      }
    }
    return loadout, sponza;
  }

  /** The body of the mesh loop: the name, then three position and three normal components
      per vertex, then the indices one by one. */
  method FlattenMesh<F>(curMesh: Mesh<F>) returns (curShape: Shape<F>)
    ensures curShape == Flatten(curMesh)
  {
    var positions, normals := FlattenVertices(curMesh.vertices);
    var indicies := CopyIndices(curMesh.indices);
    curShape := Shape(positions, normals, indicies, curMesh.meshName);
  }

  /** Appending one vector appends its three components. */
  lemma ComponentsSnoc<F>(vs: seq<Vec3<F>>, v: Vec3<F>)
    ensures Components(vs + [v]) == Components(vs) + [v.x, v.y, v.z]
  {
    assert (vs + [v])[..|vs|] == vs;
  }

  /** The vertex loop: `push_back` of X, Y, Z of the position and of the normal. */
  method FlattenVertices<F>(vertices: seq<Vertex<F>>) returns (positions: seq<F>, normals: seq<F>)
    ensures positions == Components(Positions(vertices))
    ensures normals == Components(Normals(vertices))
  {
    positions, normals := [], [];
    var j := 0;
    while j < |vertices|
      invariant 0 <= j <= |vertices|
      invariant positions == Components(Positions(vertices[..j]))
      invariant normals == Components(Normals(vertices[..j]))
    {
      var v := vertices[j];
      assert Positions(vertices[..j + 1]) == Positions(vertices[..j]) + [v.position];
      assert Normals(vertices[..j + 1]) == Normals(vertices[..j]) + [v.normal];
      ComponentsSnoc(Positions(vertices[..j]), v.position);
      ComponentsSnoc(Normals(vertices[..j]), v.normal);
      positions := positions + [v.position.x, v.position.y, v.position.z];
      normals := normals + [v.normal.x, v.normal.y, v.normal.z];
      j := j + 1;
    }
    assert vertices[..j] == vertices;
  }

  /** The index loop: an in-order copy. */
  method CopyIndices(indices: seq<nat>) returns (indicies: seq<nat>)
    ensures indicies == indices
  {
    indicies := [];
    var j := 0;
    while j < |indices|
      invariant 0 <= j <= |indices|
      invariant indicies == indices[..j]
    {
      assert indices[..j + 1] == indices[..j] + [indices[j]];
      indicies := indicies + [indices[j]];
      j := j + 1;
    }
    assert indices[..j] == indices;
  }
}
