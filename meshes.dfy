/** The static geometry of the six dice: for each kind, the number of
    vertices in its vertex list and the triangle index list drawn with it.
    Vertex positions and colours are floating-point data and are not part of
    this model; only the length of each vertex list matters for the check
    that every index names an existing vertex. */
module Meshes {
  import opened Dice

  /** Element type of the index buffers. */
  newtype u16 = x: int | 0 <= x < 0x1_0000

  /** A triangle-list mesh: how many vertices it has, and the index list. */
  datatype Mesh = Mesh(vertexCount: nat, indices: seq<u16>)

  /** Why an index list is not a triangle list over its vertices. */
  datatype MeshError =
    | RaggedLength(length: nat)
    | IndexOutOfRange(position: nat, index: u16)

  // Each table is written in the groups of the source: one group per face
  // where the source groups by face.

  const FOUR_INDICES: seq<u16> := [
    0, 1, 2,
    0, 2, 3,
    0, 1, 3,
    1, 2, 3
  ]

  const SIX_INDICES: seq<u16> :=
    [0, 1, 2, 2, 3, 0] +  // front
    [4, 5, 6, 6, 7, 4] +  // back
    [0, 4, 7, 7, 3, 0] +  // left
    [1, 5, 6, 6, 2, 1] +  // right
    [3, 2, 6, 6, 7, 3] +  // top
    [0, 1, 5, 5, 4, 0]    // bottom

  const EIGHT_INDICES: seq<u16> := [
    0, 2, 4,
    0, 2, 5,
    0, 3, 4,
    0, 3, 5,
    1, 2, 4,
    1, 2, 5,
    1, 3, 4,
    1, 3, 5
  ]

  const TEN_INDICES: seq<u16> := [
    0, 1, 2,
    0, 2, 3,
    0, 1, 3,
    1, 2, 3
  ]

  /** Twelve pentagonal faces, three triangles each. */
  const TWELVE_INDICES: seq<u16> :=
    [0, 1, 9, 0, 1, 14, 0, 14, 13] +
    [0, 13, 3, 0, 3, 19, 0, 19, 18] +
    [0, 17, 2, 0, 2, 10, 0, 10, 9] +
    [8, 7, 20, 8, 7, 11, 8, 11, 12] +
    [8, 12, 6, 8, 6, 15, 8, 15, 16] +
    [8, 16, 5, 8, 5, 18, 8, 18, 20] +
    [20, 18, 4, 20, 4, 14, 20, 14, 7] +
    [11, 7, 14, 11, 14, 13, 11, 13, 3] +
    [11, 3, 19, 11, 19, 6, 11, 6, 12] +
    [15, 6, 19, 15, 19, 17, 15, 17, 2] +
    [15, 2, 10, 15, 10, 5, 15, 5, 16] +
    [5, 10, 9, 5, 9, 4, 5, 4, 18]

  const TWENTY_INDICES: seq<u16> :=
    [0, 1, 10, 0, 10, 6, 0, 6, 4, 0, 4, 8, 0, 8, 1] +  // faces with vertex 0
    [1, 8, 5, 1, 5, 7, 1, 7, 10] +                     // remaining faces with 1
    [2, 3, 9, 2, 9, 4, 2, 4, 6, 2, 6, 11, 2, 11, 3] +  // remaining faces with 2
    [3, 9, 5, 3, 5, 7, 3, 7, 11] +                     // remaining faces with 3
    [4, 8, 9, 5, 8, 9, 6, 10, 11, 7, 10, 11]           // faces with 4, 5, 6 and 7

  /** Number of sides of each face of the solid a kind is meant to be: the
      ten-sided die is a pentagonal trapezohedron, whose faces are kites. */
  function FaceSides(kind: DieKind): nat {
    match kind
    case Four => 3
    case Six => 4
    case Eight => 3
    case Ten => 4
    case Twelve => 5
    case Twenty => 3
  }

  /** Length of the vertex list uploaded for each kind. Every list but the
      ten-sided one has the vertex count of its solid, by Euler's formula
      V - E + F = 2 with E = F * sides / 2; the ten-sided list is the
      four-vertex tetrahedron placeholder. */
  function VertexCount(kind: DieKind): (n: nat)
    ensures kind != Ten ==> n + Faces(kind) == 2 + Faces(kind) * FaceSides(kind) / 2
    ensures kind == Ten ==> n == 4
  {
    match kind
    case Four => 4
    case Six => 8
    case Eight => 6
    case Ten => 4
    case Twelve => 20
    case Twenty => 12
  }

  /** The index list uploaded for each kind. It always holds whole
      triangles; every table but the ten-sided one fans each face of its
      solid into `sides - 2` triangles, and the ten-sided table is the
      tetrahedron placeholder, equal to the four-sided one. */
  function Indices(kind: DieKind): (r: seq<u16>)
    ensures |r| % 3 == 0
    ensures kind != Ten ==> |r| == 3 * Faces(kind) * (FaceSides(kind) - 2)
    ensures kind == Ten ==> r == FOUR_INDICES
  {
    match kind
    case Four => FOUR_INDICES
    case Six => SIX_INDICES
    case Eight => EIGHT_INDICES
    case Ten => TEN_INDICES
    case Twelve => TWELVE_INDICES
    case Twenty => TWENTY_INDICES
  }

  function MeshOf(kind: DieKind): Mesh {
    Mesh(VertexCount(kind), Indices(kind))
  }

  /** A well-formed triangle list: whole triangles only, and every index
      below the vertex count. */
  predicate IsTriangleList(m: Mesh) {
    |m.indices| % 3 == 0 && AllBelow(m.indices, m.vertexCount)
  }

  /** Every index in `s` is below `n`. */
  predicate AllBelow(s: seq<u16>, n: nat) {
    forall x | x in s :: x as int < n
  }

  /** The position of the first index in `s` that is not below `n`, if any. */
  function FirstOutOfRange(s: seq<u16>, n: nat): (r: Option<nat>)
    ensures r.None? <==> forall i | 0 <= i < |s| :: s[i] as int < n
    ensures r.Some? ==>
      && r.value < |s|
      && s[r.value] as int >= n
      && forall i | 0 <= i < r.value :: s[i] as int < n
  {
    if s == [] then None
    else if s[0] as int >= n then Some(0)
    else
      match FirstOutOfRange(s[1..], n)
      case None => None
      case Some(p) => Some(p + 1)
  }

  /** The triangle-list check: `None` when the mesh is well formed, otherwise
      the first defect found (a ragged length before any index). */
  function CheckMesh(m: Mesh): (r: Option<MeshError>)
    ensures r.None? <==> IsTriangleList(m)
    ensures r.Some? && r.value.IndexOutOfRange? ==>
      && r.value.position < |m.indices|
      && r.value.index == m.indices[r.value.position]
      && r.value.index as int >= m.vertexCount
  {
    if |m.indices| % 3 != 0 then Some(RaggedLength(|m.indices|))
    else
      match FirstOutOfRange(m.indices, m.vertexCount)
      case None => None
      case Some(p) =>
        assert m.indices[p] in m.indices;
        Some(IndexOutOfRange(p, m.indices[p]))
  }

  // One small lemma per table keeps each proof to a single literal list.

  lemma FourTableChecked() ensures |FOUR_INDICES| == 12 && AllBelow(FOUR_INDICES, 4) {}
  lemma SixTableChecked() ensures |SIX_INDICES| == 36 && AllBelow(SIX_INDICES, 8) {}
  lemma EightTableChecked() ensures |EIGHT_INDICES| == 24 && AllBelow(EIGHT_INDICES, 6) {}
  lemma TenTableChecked() ensures |TEN_INDICES| == 12 && AllBelow(TEN_INDICES, 4) {}
  lemma TwentyTableChecked() ensures |TWENTY_INDICES| == 60 && AllBelow(TWENTY_INDICES, 12) {}

  lemma TwelveTableLength() ensures |TWELVE_INDICES| == 108 {}
  lemma TwelveTableAt29() ensures TWELVE_INDICES[29] == 20 {}
  lemma TwelveTablePrefix() ensures forall i | 0 <= i < 29 :: TWELVE_INDICES[i] < 20 {}
  lemma TwelveTableQuarter1() ensures forall i | 0 <= i < 27 :: TWELVE_INDICES[i] < 20 {}
  lemma TwelveTableQuarter2()
    ensures forall i | 27 <= i < 54 :: TWELVE_INDICES[i] >= 20 <==> i == 29 || i == 53
  {}
  lemma TwelveTableQuarter3()
    ensures forall i | 54 <= i < 81 :: TWELVE_INDICES[i] >= 20 <==> i == 54 || i == 57 || i == 60
  {}
  lemma TwelveTableQuarter4() ensures forall i | 81 <= i < 108 :: TWELVE_INDICES[i] < 20 {}

  /** Every table passes the check except the twelve-sided one. */
  lemma TablesChecked(kind: DieKind)
    ensures IsTriangleList(MeshOf(kind)) <==> kind != Twelve
  {
    match kind
    case Four => FourTableChecked();
    case Six => SixTableChecked();
    case Eight => EightTableChecked();
    case Ten => TenTableChecked();
    case Twelve =>
      TwelveTableAt29();
      assert TWELVE_INDICES[29] in MeshOf(kind).indices;
    case Twenty => TwentyTableChecked();
  }

  /** The twelve-sided table is rejected at its 30th entry, the index 20,
      while its vertex list has twenty entries, numbered 0 to 19. */
  lemma TwelveTableRejected()
    ensures CheckMesh(MeshOf(Twelve)) == Some(IndexOutOfRange(29, 20))
  {
    TwelveTableLength();
    TwelveTableAt29();
    TwelveTablePrefix();
    var m := MeshOf(Twelve);
    assert m == Mesh(20, TWELVE_INDICES);
    var r := FirstOutOfRange(m.indices, 20);
    assert r == Some(29);
  }

  /** The index 20 occurs five times in the twelve-sided table, and no
      other entry is out of range. */
  lemma TwelveTableOutOfRange()
    ensures (set i | 0 <= i < |Indices(Twelve)| && Indices(Twelve)[i] as int >= VertexCount(Twelve))
         == {29, 53, 54, 57, 60}
  {
    TwelveTableLength();
    TwelveTableQuarter1();
    TwelveTableQuarter2();
    TwelveTableQuarter3();
    TwelveTableQuarter4();
    assert Indices(Twelve) == TWELVE_INDICES && VertexCount(Twelve) == 20;
    var bad := set i | 0 <= i < |TWELVE_INDICES| && TWELVE_INDICES[i] as int >= 20;
    forall i ensures i in bad <==> i in {29, 53, 54, 57, 60} {
      if 0 <= i < 27 {
        assert i !in bad;
      } else if 27 <= i < 54 {
        assert i in bad <==> i == 29 || i == 53;
      } else if 54 <= i < 81 {
        assert i in bad <==> i == 54 || i == 57 || i == 60;
      } else if 81 <= i < 108 {
        assert i !in bad;
      } else {
        assert i !in bad;
      }
    }
  }
}
