/** The two object constructors of the renderer: generate the geometry, then
    run the tangent-space pass over it. Uploading the arrays to the GPU is not
    part of this model.

    The per-triangle tangent and bitangent are derived by the renderer from each
    triangle's positions and texture coordinates by a float formula. Here they
    are the functions `tangentOf` and `bitangentOf` of the triangle number,
    supplied by the caller, and `invSqrt` is the inverse square root, defined on the positive reals.
 */
module Objects {
  import opened Geometry
  import Cube
  import SphereLayout
  import SphereIndices
  import SphereVertices
  import Tangents
  import Arith

  /** The tangent arrays of `o` are those the tangent pass derives from its
      mesh and the given per-triangle frames. */
  predicate HasTangentFrames(o: RenderObject, tangentOf: int -> Vec3, bitangentOf: int -> Vec3,
                             invSqrt: real --> real)
    requires ValidObject(o) && Tangents.DefinedOnPositives(invSqrt)
  {
    var T := NumTriangles(o.mesh);
    var tangent := seq(T, t => tangentOf(t));
    var bitangent := seq(T, t => bitangentOf(t));
    forall v :: 0 <= v < |o.mesh.vertices| ==>
      && o.tangents[v] == Tangents.Normalized(Tangents.Accumulated(o.mesh.indices, tangent, v, T), invSqrt)
      && o.bitangents[v] == Tangents.Normalized(Tangents.Accumulated(o.mesh.indices, bitangent, v, T), invSqrt)
  }

  /** The tangent pass over a valid mesh. */
  method WithTangents(m: Mesh, tangentOf: int -> Vec3, bitangentOf: int -> Vec3, invSqrt: real --> real)
    returns (o: RenderObject)
    requires ValidMesh(m) && Tangents.DefinedOnPositives(invSqrt)
    ensures o.mesh == m && ValidObject(o)
    ensures HasTangentFrames(o, tangentOf, bitangentOf, invSqrt)
  {
    var T := NumTriangles(m);
    var tangent := seq(T, t => tangentOf(t));
    var bitangent := seq(T, t => bitangentOf(t));
    var tangents, bitangents := Tangents.ComputeTangentFrames(|m.vertices|, m.indices, tangent, bitangent, invSqrt);
    o := RenderObject(m, tangents, bitangents);
  }

  /** The cube object: the cube geometry with its tangent frames. */
  method CreateCubeObject(tangentOf: int -> Vec3, bitangentOf: int -> Vec3, invSqrt: real --> real)
    returns (o: RenderObject)
    requires Tangents.DefinedOnPositives(invSqrt)
    ensures ValidObject(o) && Cube.IsCubeMesh(o.mesh)
    ensures NumTriangles(o.mesh) == 12
    ensures forall t :: 0 <= t < NumTriangles(o.mesh) ==> FacesOutward(o.mesh, t)
    ensures HasTangentFrames(o, tangentOf, bitangentOf, invSqrt)
  {
    var m := Cube.CreateCubeGeometry();
    Cube.AllTrianglesFaceOutward(m);
    o := WithTangents(m, tangentOf, bitangentOf, invSqrt);
  }

  /** `m` is the sphere of resolution `r` and radius `size`: every index slot
      holds the vertex the slot decodes to, and every vertex slot holds the
      attributes of the vertex the layout puts there. */
  predicate IsSphereMesh(r: int, size: real, trig: SphereVertices.Trig, m: Mesh)
    requires r >= 2
  {
    && |m.vertices| == |m.normals| == |m.uvs| == SphereLayout.NumVertices(r)
    && |m.indices| == SphereIndices.NumIndices(r)
    && (forall k :: 0 <= k < SphereIndices.NumIndices(r) ==> m.indices[k] == SphereIndices.IndexAt(r, k))
    && (forall v :: 0 <= v < SphereLayout.NumVertices(r) ==>
          && m.vertices[v] == SphereVertices.PositionOf(size, trig, SphereLayout.RefAt(r, v))
          && m.normals[v] == SphereVertices.NormalOf(trig, SphereLayout.RefAt(r, v))
          && m.uvs[v] == SphereVertices.UvOf(r, SphereLayout.RefAt(r, v)))
  }

  /** The sphere object: the index buffer, the vertex attributes, then the
      tangent frames. The mesh is valid: whole triangles, every index naming
      an existing vertex. */
  method CreateSphereObject(r: int, size: real, trig: SphereVertices.Trig,
                            tangentOf: int -> Vec3, bitangentOf: int -> Vec3, invSqrt: real --> real)
    returns (o: RenderObject)
    requires r >= 2 && Tangents.DefinedOnPositives(invSqrt)
    ensures ValidObject(o) && IsSphereMesh(r, size, trig, o.mesh)
    ensures NumTriangles(o.mesh) == 2 * r * (r - 1)
    ensures HasTangentFrames(o, tangentOf, bitangentOf, invSqrt)
  {
    var indices, _ := SphereIndices.CreateSphereIndices(r);
    var vertices, normals, uvs, _ := SphereVertices.CreateSphereVertices(r, size, trig);
    var m := Mesh(vertices, normals, uvs, indices);
    assert IsSphereMesh(r, size, trig, m);
    SphereMeshValid(r, size, trig, m);
    o := WithTangents(m, tangentOf, bitangentOf, invSqrt);
  }

  /** The sphere mesh is made of `2 r (r - 1)` whole triangles, each naming
      existing vertices. */
  lemma SphereMeshValid(r: int, size: real, trig: SphereVertices.Trig, m: Mesh)
    requires r >= 2 && IsSphereMesh(r, size, trig, m)
    ensures ValidMesh(m) && NumTriangles(m) == 2 * r * (r - 1)
  {
    SphereIndices.Counts(r);
    var T := 2 * r * (r - 1);
    assert |m.indices| == T * 3 + 0;
    Arith.DivModUnique(T, 3, 0);
    forall k | 0 <= k < |m.indices|
      ensures 0 <= m.indices[k] < |m.vertices|
    {
      assert m.indices[k] == SphereIndices.IndexAt(r, k);
    }
  }
}
