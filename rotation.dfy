/**
 * The rotation controller of VITE/src/CubicGallery.tsx: the pointer delta
 * computed by `handleMouseMove` and the angles `updateFrame` accumulates.
 * Angles and deltas are reals; the browser's floating point is not modelled.
 */
module Rotation {
  /** Degrees per frame for a pointer at the viewport edge, doubled (the factor 1.25). */
  const Sensitivity: real := 1.25
  /** The cube is pushed back by translateZ(-1200px) before it is rotated. */
  const ViewDistance: int := -1200

  /**
   * The cube's transform as `updateFrame` writes it: translateZ(translateZ)
   * then rotateY(rotateY) then rotateX(rotateX), always in this order.
   */
  datatype CubeTransform = CubeTransform(translateZ: int, rotateY: real, rotateX: real)

  /** Yaw delta (`mouseX`) for a pointer at clientX in a viewport innerWidth wide. */
  function YawDelta(clientX: real, innerWidth: real): (d: real)
    requires innerWidth > 0.0
    ensures d == 0.0 <==> 2.0 * clientX == innerWidth
    ensures d > 0.0 <==> 2.0 * clientX < innerWidth
    ensures 0.0 <= clientX <= innerWidth ==> -Sensitivity / 2.0 <= d <= Sensitivity / 2.0
  {
    DeltaBounds(clientX, innerWidth);
    -((clientX / innerWidth) - 0.5) * Sensitivity
  }

  /** Pitch delta (`mouseY`) for a pointer at clientY in a viewport innerHeight high. */
  function PitchDelta(clientY: real, innerHeight: real): (d: real)
    requires innerHeight > 0.0
    ensures d == 0.0 <==> 2.0 * clientY == innerHeight
    ensures d > 0.0 <==> 2.0 * clientY > innerHeight
    ensures 0.0 <= clientY <= innerHeight ==> -Sensitivity / 2.0 <= d <= Sensitivity / 2.0
  {
    DeltaBounds(clientY, innerHeight);
    ((clientY / innerHeight) - 0.5) * Sensitivity
  }

  /** Facts about a pointer coordinate relative to the viewport centre. */
  lemma DeltaBounds(p: real, size: real)
    requires size > 0.0
    ensures (p / size - 0.5 == 0.0) <==> 2.0 * p == size
    ensures (p / size - 0.5 < 0.0) <==> 2.0 * p < size
    ensures 0.0 <= p <= size ==> -0.5 <= p / size - 0.5 <= 0.5
  {
    var f := p / size;
    assert f * size == p;
    assert 2.0 * p - size == (2.0 * f - 1.0) * size;
    SignOfProduct(2.0 * f - 1.0, size);
    if 0.0 <= p <= size {
      SignOfProduct(f, size);
      assert (f - 1.0) * size == p - size;
      SignOfProduct(f - 1.0, size);
    }
  }

  lemma SignOfProduct(a: real, b: real)
    requires b > 0.0
    ensures a * b == 0.0 <==> a == 0.0
    ensures a * b < 0.0 <==> a < 0.0
  {
  }

  /** Sum of the deltas added over a run of frames. */
  function Sum(deltas: seq<real>): real
  {
    if deltas == [] then 0.0 else Sum(deltas[..|deltas| - 1]) + deltas[|deltas| - 1]
  }

  /** Appending one frame's delta adds it to the sum. */
  lemma SumSnoc(deltas: seq<real>, d: real)
    ensures Sum(deltas + [d]) == Sum(deltas) + d
  {
    assert (deltas + [d])[..|deltas|] == deltas;
  }
}
