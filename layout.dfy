/**
 * Placement of the gallery tiles on the six faces of the cube
 * (VITE/src/CubicGallery.tsx, the constants and `buildFace`).
 *
 * Coordinates follow CSS 3D transforms: x grows to the right, y grows
 * downwards and z grows towards the viewer. A tile's transform is a face
 * rotation followed by translateX, translateY and translateZ, so the
 * tile's centre ends up at the rotated translation vector.
 */
module Layout {
  import opened Wrappers

  /** Tiles along one edge of a face (FACE_SIZE). */
  const FaceSize: nat := 3
  /** Edge of one tile and the gap between tiles, in pixels. */
  const ItemSize: int := 240
  const ItemDistance: int := 40
  /** cellSize and cubeSize of the layout code. */
  const CellSize: int := ItemSize + ItemDistance
  const CubeSize: int := CellSize * FaceSize
  /** Distance of each face's plane from the cube's centre: `cubeSize * 0.5`, exact since cubeSize is even. */
  const HalfDepth: int := CubeSize / 2
  /** Offset of the first row and column: `-cubeSize * 0.5 + cellSize * 0.5`, exact as well. */
  const Origin: int := -HalfDepth + CellSize / 2

  const FaceCount: nat := 6
  const TilesPerFace: nat := FaceSize * FaceSize
  /** Number of tiles the layout loop consumes: six faces of 3 x 3. */
  const CubeTiles: nat := FaceCount * TilesPerFace

  datatype Axis = X | Y

  /** The rotation written in front of a tile's translations. */
  datatype FaceRotation = Identity | Rotate(axis: Axis, degrees: int)

  /** A tile's transform: `rotation translateX(..) translateY(..) translateZ(..)`. */
  datatype Placement = Placement(rotation: FaceRotation, translateX: int, translateY: int, translateZ: int)

  /** Face 0..5 (front, back, left, right, top, bottom), row and column of a tile. */
  datatype Cell = Cell(face: nat, row: nat, col: nat)

  datatype Vec3 = Vec3(x: int, y: int, z: int)

  predicate ValidCell(c: Cell)
  {
    c.face < FaceCount && c.row < FaceSize && c.col < FaceSize
  }

  /** The three translations a row or a column can get. */
  predicate IsGridOffset(t: int)
  {
    t == -CellSize || t == 0 || t == CellSize
  }

  /** The per-face rotation of the `switch (faceId)`. */
  function FaceRotationOf(face: nat): (r: FaceRotation)
    requires face < FaceCount
    ensures r == Identity <==> face == 0
    ensures r.Rotate? ==> r.degrees % 90 == 0 && r.degrees % 360 != 0
  {
    if face == 0 then Identity
    else if face == 1 then Rotate(Y, 180)
    else if face == 2 then Rotate(Y, -90)
    else if face == 3 then Rotate(Y, 90)
    else if face == 4 then Rotate(X, 90)
    else Rotate(X, -90)
  }

  /** Translation of row or column k: `k * cellSize + origin`; the grid is centred on the face. */
  function Offset(k: nat): (t: int)
    requires k < FaceSize
    ensures IsGridOffset(t)
    ensures t == 0 <==> 2 * k == FaceSize - 1
    ensures t == -((FaceSize - 1 - k) * CellSize + Origin)
  {
    k * CellSize + Origin
  }

  /** The transform `buildFace` writes for the tile in cell c. */
  function PlacementAt(c: Cell): (p: Placement)
    requires ValidCell(c)
    ensures p.rotation == FaceRotationOf(c.face)
    ensures IsGridOffset(p.translateX) && IsGridOffset(p.translateY)
    ensures 2 * p.translateZ == CubeSize
  {
    Placement(FaceRotationOf(c.face), Offset(c.col), Offset(c.row), HalfDepth)
  }

  /** Input index consumed at cell c: faces in order, each face row-major. */
  function IndexOf(c: Cell): (k: nat)
    requires ValidCell(c)
    ensures k < CubeTiles
  {
    c.face * TilesPerFace + c.row * FaceSize + c.col
  }

  /** The cell that receives input index k. */
  function CellAt(k: nat): (c: Cell)
    requires k < CubeTiles
    ensures ValidCell(c)
  {
    Cell(k / TilesPerFace, (k % TilesPerFace) / FaceSize, (k % TilesPerFace) % FaceSize)
  }

  lemma CellAtIndexOf(c: Cell)
    requires ValidCell(c)
    ensures CellAt(IndexOf(c)) == c
  {
    var rest := c.row * FaceSize + c.col;
    assert rest / FaceSize == c.row && rest % FaceSize == c.col;
    assert IndexOf(c) / TilesPerFace == c.face && IndexOf(c) % TilesPerFace == rest;
  }

  lemma IndexOfCellAt(k: nat)
    requires k < CubeTiles
    ensures IndexOf(CellAt(k)) == k
  {
    var c := CellAt(k);
    assert k % TilesPerFace == c.row * FaceSize + c.col;
    assert k == c.face * TilesPerFace + k % TilesPerFace;
  }

  /** Placement of input tile k (k < 54). */
  function PlacementOf(k: nat): Placement
    requires k < CubeTiles
  {
    PlacementAt(CellAt(k))
  }

  /** Cosine and sine of a multiple of 90 degrees. */
  function Cos(d: int): (r: int)
    requires d % 90 == 0
    ensures r * r + Sin(d) * Sin(d) == 1
  {
    var m := d % 360;
    if m == 0 then 1 else if m == 180 then -1 else 0
  }

  function Sin(d: int): int
    requires d % 90 == 0
  {
    var m := d % 360;
    if m == 90 then 1 else if m == 270 then -1 else 0
  }

  /** CSS rotateY / rotateX by a multiple of 90 degrees, applied to a point. */
  function RotatePoint(r: FaceRotation, v: Vec3): (w: Vec3)
    requires r.Rotate? ==> r.degrees % 90 == 0
  {
    match r
    case Identity => v
    case Rotate(Y, a) => Vec3(v.x * Cos(a) + v.z * Sin(a), v.y, -v.x * Sin(a) + v.z * Cos(a))
    case Rotate(X, a) => Vec3(v.x, v.y * Cos(a) - v.z * Sin(a), v.y * Sin(a) + v.z * Cos(a))
  }

  /** Where the centre of tile k ends up relative to the cube's centre. */
  function TileCentre(k: nat): Vec3
    requires k < CubeTiles
  {
    var p := PlacementOf(k);
    RotatePoint(p.rotation, Vec3(p.translateX, p.translateY, p.translateZ))
  }

  /** Row or column whose offset is t, if t is one of the grid offsets. */
  function GridIndex(t: int): (r: Option<nat>)
    ensures r.Some? ==> r.value < FaceSize && Offset(r.value) == t
    ensures r.None? ==> !IsGridOffset(t)
  {
    if (t - Origin) % CellSize == 0 && 0 <= (t - Origin) / CellSize < FaceSize
    then Some((t - Origin) / CellSize)
    else None
  }

  /**
   * The cell a point on the cube's surface belongs to, read off geometrically:
   * the face is the one whose plane (z = 420 front, z = -420 back, x = -420
   * left, x = 420 right, y = -420 top, y = 420 bottom) holds the point, and the
   * row and column come from the two remaining coordinates as seen from
   * outside that face.
   */
  function LocateCentre(v: Vec3): Option<Cell>
  {
    var (face, across, down) :=
      if v.z == HalfDepth then (0, v.x, v.y)
      else if v.z == -HalfDepth then (1, -v.x, v.y)
      else if v.x == -HalfDepth then (2, v.z, v.y)
      else if v.x == HalfDepth then (3, -v.z, v.y)
      else if v.y == -HalfDepth then (4, v.x, v.z)
      else if v.y == HalfDepth then (5, v.x, -v.z)
      else (FaceCount, 0, 0);
    if face == FaceCount then None
    else match (GridIndex(down), GridIndex(across))
      case (Some(row), Some(col)) => Some(Cell(face, row, col))
      case _ => None
  }

  /**
   * Every tile lands on the face its `case` comment names (front, back,
   * left, right, top, bottom), at the row and column it was laid out in,
   * facing outwards at distance HalfDepth from the centre.
   */
  lemma TileCentreOnItsFace(k: nat)
    requires k < CubeTiles
    ensures LocateCentre(TileCentre(k)) == Some(CellAt(k))
  {
    CellCentreOnItsFace(CellAt(k));
  }

  lemma CellCentreOnItsFace(c: Cell)
    requires ValidCell(c)
    ensures var p := PlacementAt(c);
      LocateCentre(RotatePoint(p.rotation, Vec3(p.translateX, p.translateY, p.translateZ))) == Some(c)
  {
    var tx, ty := Offset(c.col), Offset(c.row);
    GridIndexOffset(c.col);
    GridIndexOffset(c.row);
    GridIndexOffset(FaceSize - 1 - c.col);
    GridIndexOffset(FaceSize - 1 - c.row);
    RotateFace(c.face, Vec3(tx, ty, HalfDepth));
  }

  /** What each face rotation does to a point, spelled out. */
  lemma RotateFace(face: nat, v: Vec3)
    requires face < FaceCount
    ensures RotatePoint(FaceRotationOf(face), v) ==
      if face == 0 then v
      else if face == 1 then Vec3(-v.x, v.y, -v.z)
      else if face == 2 then Vec3(-v.z, v.y, v.x)
      else if face == 3 then Vec3(v.z, v.y, -v.x)
      else if face == 4 then Vec3(v.x, -v.z, v.y)
      else Vec3(v.x, v.z, -v.y)
  {
    if face == 1 {
      assert Cos(180) == -1 && Sin(180) == 0;
    } else if face == 2 {
      assert Cos(-90) == 0 && Sin(-90) == -1;
    } else if face == 3 || face == 4 {
      assert Cos(90) == 0 && Sin(90) == 1;
    } else if face == 5 {
      assert Cos(-90) == 0 && Sin(-90) == -1;
    }
  }

  lemma GridIndexOffset(k: nat)
    requires k < FaceSize
    ensures GridIndex(Offset(k)) == Some(k)
  {
  }

  /** No two input tiles are placed at the same point of the cube. */
  lemma CentresDistinct(k1: nat, k2: nat)
    requires k1 < CubeTiles && k2 < CubeTiles && k1 != k2
    ensures TileCentre(k1) != TileCentre(k2)
  {
    TileCentreOnItsFace(k1);
    TileCentreOnItsFace(k2);
    IndexOfCellAt(k1);
    IndexOfCellAt(k2);
  }
}
