/**
 * The gallery component of VITE/src/CubicGallery.tsx as one object: the
 * transforms written on the tile elements at mount, the rotation state
 * advanced by each animation frame, and the enlarged-image display.
 *
 * The browser is reduced to the calls it makes into the component: the
 * constructor is the mount effect, `MouseMove`, `MouseDown` and
 * `DisplayClick` are the event handlers (the elements under the pointer are
 * passed in), `Step` is one animation frame, and `Teardown` is the effect's
 * cleanup.
 */
module Gallery {
  import opened Wrappers
  import opened Layout
  import opened Rotation
  import opened HitTest

  /** The transform tile k carries after mount: placed when k < 54, untouched past that. */
  function LaidOut(k: nat): (slot: Option<Placement>)
    ensures slot.Some? <==> k < CubeTiles
  {
    if k < CubeTiles then Some(PlacementOf(k)) else None
  }

  /** Every tile among the elements under the pointer is one rendered for an entry of images. */
  ghost predicate RendersTilesOf(elements: seq<Element>, images: seq<string>)
  {
    forall i :: 0 <= i < |elements| && IsGalleryItem(elements[i]) ==>
      exists k :: 0 <= k < |images| && elements[i] == TileElement(images[k])
  }

  /** The tile a mouse-down picks names one of the gallery's own images. */
  lemma ClickedImageIsGalleryImage(elements: seq<Element>, images: seq<string>)
    requires RendersTilesOf(elements, images) && FirstGalleryItem(elements).Some?
    ensures var chosen := elements[FirstGalleryItem(elements).value];
      exists k :: 0 <= k < |images| && BackgroundUrl(chosen.backgroundImage) == Some(images[k])
  {
    var i := FirstGalleryItem(elements).value;
    var k :| 0 <= k < |images| && elements[i] == TileElement(images[k]);
    assert BackgroundUrl(elements[i].backgroundImage) == Some(images[k]);
  }

  class CubicGallery {
    /** The `imageData` prop; tile element k shows images[k]. */
    const images: seq<string>
    /** The inline transform of tile element k (None: never written). */
    const placements: array<Option<Placement>>
    /** Latest pointer deltas, set by `MouseMove`. */
    var mouseX: real
    var mouseY: real
    /** Accumulated orientation. */
    var angleX: real
    var angleY: real
    /** The inline transform of the cube element. */
    var cubeTransform: Option<CubeTransform>
    /** Both document listeners registered and an animation frame pending. */
    var listening: bool
    /** The display's background image and whether it is scaled to full size. */
    var displayImage: string
    var expanded: bool
    /** The deltas added by the frames run so far. */
    ghost var yawDeltas: seq<real>
    ghost var pitchDeltas: seq<real>

    ghost predicate Valid()
      reads this, placements
    {
      placements.Length == |images| &&
      (|images| == 0 || |images| >= CubeTiles) &&
      (forall k :: 0 <= k < placements.Length ==> placements[k] == LaidOut(k)) &&
      (listening ==> |images| > 0) &&
      angleX == Sum(yawDeltas) && angleY == Sum(pitchDeltas)
    }

    /**
     * Mount. With no images nothing is placed, no listener is registered and
     * no frame runs. Otherwise every one of the first 54 tiles is placed, the
     * orientation and pointer deltas are reset, the listeners are registered
     * and the first frame runs at once.
     */
    constructor (imageData: seq<string>)
      requires |imageData| == 0 || |imageData| >= CubeTiles
      ensures Valid() && fresh(placements) && images == imageData
      ensures forall k :: 0 <= k < placements.Length ==> placements[k] == LaidOut(k)
      ensures listening <==> |imageData| > 0
      ensures |imageData| == 0 ==> cubeTransform == None && yawDeltas == [] && pitchDeltas == []
      ensures |imageData| > 0 ==>
        mouseX == 0.0 && mouseY == 0.0 && angleX == 0.0 && angleY == 0.0 &&
        yawDeltas == [0.0] && pitchDeltas == [0.0] &&
        cubeTransform == Some(CubeTransform(ViewDistance, 0.0, 0.0))
      ensures displayImage == "" && !expanded
    {
      images := imageData;
      placements := new Option<Placement>[|imageData|](_ => None);
      mouseX, mouseY, angleX, angleY := 0.0, 0.0, 0.0, 0.0;
      cubeTransform := None;
      listening := false;
      displayImage, expanded := "", false;
      yawDeltas, pitchDeltas := [], [];
      new;
      if |imageData| != 0 {
        BuildCube();
        angleX, angleY, mouseX, mouseY := 0.0, 0.0, 0.0, 0.0;
        listening := true;
        Step();
      }
    }

    /** `for (let i = 0; i < 6; i++) buildFace(i)`, with the shared counter. */
    method BuildCube()
      requires placements.Length >= CubeTiles
      requires forall k :: 0 <= k < placements.Length ==> placements[k] == None
      modifies placements
      ensures forall k :: 0 <= k < placements.Length ==> placements[k] == LaidOut(k)
    {
      var count := 0;
      for f := 0 to FaceCount
        invariant count == f * TilesPerFace
        invariant forall k :: 0 <= k < placements.Length ==>
          placements[k] == if k < count then Some(PlacementOf(k)) else None
      {
        count := BuildFace(f, count);
      }
    }

    /** `buildFace(faceId)`: the face's 3 x 3 cells, row-major, each taking the next tile. */
    method BuildFace(faceId: nat, count: nat) returns (next: nat)
      requires faceId < FaceCount && count == faceId * TilesPerFace
      requires count + TilesPerFace <= placements.Length
      modifies placements
      ensures next == count + TilesPerFace
      ensures forall k :: 0 <= k < placements.Length ==>
        placements[k] == if count <= k < next then Some(PlacementOf(k)) else old(placements[k])
    {
      next := count;
      for i := 0 to FaceSize
        invariant next == count + i * FaceSize
        invariant forall k :: 0 <= k < placements.Length ==>
          placements[k] == if count <= k < next then Some(PlacementOf(k)) else old(placements[k])
      {
        for j := 0 to FaceSize
          invariant next == count + i * FaceSize + j
          invariant forall k :: 0 <= k < placements.Length ==>
            placements[k] == if count <= k < next then Some(PlacementOf(k)) else old(placements[k])
        {
          CellAtIndexOf(Cell(faceId, i, j));
          placements[next] := Some(PlacementAt(Cell(faceId, i, j)));
          next := next + 1;
        }
      }
    }

    /**
     * One animation frame (`updateFrame`): the latest deltas are added to the
     * angles and the cube transform is rewritten. Nothing else changes, the
     * tile placements included. After teardown no frame is pending and the
     * call changes nothing.
     */
    method Step()
      requires Valid()
      modifies this
      ensures Valid()
      ensures placements[..] == old(placements[..])
      ensures listening == old(listening) && mouseX == old(mouseX) && mouseY == old(mouseY)
      ensures displayImage == old(displayImage) && expanded == old(expanded)
      ensures old(listening) ==>
        angleX == old(angleX) + mouseX && angleY == old(angleY) + mouseY &&
        yawDeltas == old(yawDeltas) + [mouseX] && pitchDeltas == old(pitchDeltas) + [mouseY] &&
        cubeTransform == Some(CubeTransform(ViewDistance, angleX, angleY))
      ensures !old(listening) ==>
        angleX == old(angleX) && angleY == old(angleY) && cubeTransform == old(cubeTransform) &&
        yawDeltas == old(yawDeltas) && pitchDeltas == old(pitchDeltas)
    {
      if listening {
        SumSnoc(yawDeltas, mouseX);
        SumSnoc(pitchDeltas, mouseY);
        angleX := angleX + mouseX;
        angleY := angleY + mouseY;
        yawDeltas := yawDeltas + [mouseX];
        pitchDeltas := pitchDeltas + [mouseY];
        cubeTransform := Some(CubeTransform(ViewDistance, angleX, angleY));
      }
    }

    /** `handleMouseMove`: the pointer position becomes the next frames' deltas. */
    method MouseMove(clientX: real, clientY: real, innerWidth: real, innerHeight: real)
      requires Valid() && innerWidth > 0.0 && innerHeight > 0.0
      modifies this
      ensures Valid()
      ensures old(listening) ==>
        mouseX == YawDelta(clientX, innerWidth) && mouseY == PitchDelta(clientY, innerHeight)
      ensures !old(listening) ==> mouseX == old(mouseX) && mouseY == old(mouseY)
      ensures angleX == old(angleX) && angleY == old(angleY) && cubeTransform == old(cubeTransform)
      ensures yawDeltas == old(yawDeltas) && pitchDeltas == old(pitchDeltas)
      ensures listening == old(listening) && displayImage == old(displayImage) && expanded == old(expanded)
    {
      if listening {
        mouseX := YawDelta(clientX, innerWidth);
        mouseY := PitchDelta(clientY, innerHeight);
      }
    }

    /**
     * `handleGlobalClick` on the elements under the pointer, front to back:
     * the first gallery tile's image is copied to the display, which is
     * expanded; without a tile nothing changes.
     */
    method MouseDown(elements: seq<Element>)
      requires Valid()
      modifies this
      ensures Valid()
      ensures old(listening) && FirstGalleryItem(elements).Some? ==>
        displayImage == elements[FirstGalleryItem(elements).value].backgroundImage && expanded
      ensures old(listening) && RendersTilesOf(elements, images) && FirstGalleryItem(elements).Some? ==>
        exists k :: 0 <= k < |images| && BackgroundUrl(displayImage) == Some(images[k])
      ensures !(old(listening) && FirstGalleryItem(elements).Some?) ==>
        displayImage == old(displayImage) && expanded == old(expanded)
      ensures mouseX == old(mouseX) && mouseY == old(mouseY)
      ensures angleX == old(angleX) && angleY == old(angleY) && cubeTransform == old(cubeTransform)
      ensures yawDeltas == old(yawDeltas) && pitchDeltas == old(pitchDeltas)
      ensures listening == old(listening)
    {
      if listening {
        var hit := FirstGalleryItem(elements);
        if hit.Some? {
          if RendersTilesOf(elements, images) {
            ClickedImageIsGalleryImage(elements, images);
          }
          displayImage := elements[hit.value].backgroundImage;
          expanded := true;
        }
      }
    }

    /** The display's `onClick`: collapse it, keeping its image. */
    method DisplayClick()
      requires Valid()
      modifies this`expanded
      ensures Valid() && !expanded
    {
      expanded := false;
    }

    /** The effect's cleanup: both listeners removed and the pending frame cancelled. */
    method Teardown()
      requires Valid()
      modifies this`listening
      ensures Valid() && !listening
    {
      listening := false;
    }
  }

  /**
   * A pointer resting at the viewport centre: the move sets both deltas to
   * zero, so the next frame leaves the orientation where it was.
   */
  method CentredPointerHolds(g: CubicGallery, innerWidth: real, innerHeight: real)
    requires g.Valid() && innerWidth > 0.0 && innerHeight > 0.0
    modifies g
    ensures g.Valid()
    ensures g.angleX == old(g.angleX) && g.angleY == old(g.angleY)
    ensures old(g.listening) ==> g.mouseX == 0.0 && g.mouseY == 0.0
  {
    g.MouseMove(innerWidth / 2.0, innerHeight / 2.0, innerWidth, innerHeight);
    g.Step();
  }
}
