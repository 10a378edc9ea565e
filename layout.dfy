/**
 * The constant layout records of the scene (src/components/PixiCanvas.ts).
 * Every element is described by four fractions of the canvas WIDTH; the
 * height of the canvas is 9/16 of its width.
 */
module Layout {

  /** spriteAttributes: position and size as fractions of the canvas width. */
  datatype SpriteAttributes = SpriteAttributes(
    xPercent: real,
    yPercent: real,
    widthPercent: real,
    heightPercent: real)

  /** The full-canvas background image. */
  const BackgroundSprite: SpriteAttributes := SpriteAttributes(0.0, 0.0, 1.0, 9.0 / 16.0)

  /** The emblem ("major") image, clipped to a circle. */
  const MajorSprite: SpriteAttributes := SpriteAttributes(0.425, 0.085, 0.15, 0.15)

  /** The radial bar visualizer: (x, y) is its centre, widthPercent its base radius. */
  const AudioVisualizerSprite: SpriteAttributes := SpriteAttributes(0.5, 0.16, 0.08, 0.5)

  /** The particle emitter: (x, y) is the emitter's owner position. */
  const BubblesTexture: SpriteAttributes := SpriteAttributes(0.5, 0.16, 0.01, 0.01)

  /** The "song - author" label: (x, y): x is the horizontal midpoint, y the top edge. */
  const AudioText: SpriteAttributes := SpriteAttributes(0.5, 0.32, 1.0, 0.5)

  /** The aspect ratio of the canvas container: height = width * 9 / 16. */
  const AspectHeight: real := 9.0 / 16.0

  const AllRecords: seq<SpriteAttributes> :=
    [BackgroundSprite, MajorSprite, AudioVisualizerSprite, BubblesTexture, AudioText]

  predicate Fraction(v: real)
  {
    0.0 <= v <= 1.0
  }

  predicate FractionsValid(a: SpriteAttributes)
  {
    Fraction(a.xPercent) && Fraction(a.yPercent) && Fraction(a.widthPercent) && Fraction(a.heightPercent)
  }

  /** Every layout fraction of every record lies in [0, 1]. */
  lemma AllFractionsInUnitRange()
    ensures forall i :: 0 <= i < |AllRecords| ==> FractionsValid(AllRecords[i])
  {
  }

  /** The background starts at the origin and spans the whole 16:9 canvas. */
  lemma BackgroundSpansCanvas()
    ensures BackgroundSprite.xPercent == 0.0 && BackgroundSprite.yPercent == 0.0
    ensures BackgroundSprite.widthPercent == 1.0 && BackgroundSprite.heightPercent == AspectHeight
  {
  }

  /** The emblem box is square and horizontally centred on the canvas. */
  lemma EmblemSquareAndCentred()
    ensures MajorSprite.widthPercent == MajorSprite.heightPercent
    ensures MajorSprite.xPercent + MajorSprite.widthPercent / 2.0 == 0.5
  {
  }

  /**
   * The emblem's centre is the visualizer's centre and the emitter's owner
   * position, (0.5, 0.16) of the width; the label is on the same vertical axis.
   */
  lemma CentresCoincide()
    ensures MajorSprite.xPercent + MajorSprite.widthPercent / 2.0 == AudioVisualizerSprite.xPercent
    ensures MajorSprite.yPercent + MajorSprite.heightPercent / 2.0 == AudioVisualizerSprite.yPercent
    ensures BubblesTexture.xPercent == AudioVisualizerSprite.xPercent
    ensures BubblesTexture.yPercent == AudioVisualizerSprite.yPercent
    ensures AudioText.xPercent == AudioVisualizerSprite.xPercent
  {
  }

  /** The emblem's mask radius (half its width, 0.075) is below the bars' base radius (0.08). */
  lemma MaskInsideBaseRadius()
    ensures MajorSprite.widthPercent / 2.0 < AudioVisualizerSprite.widthPercent
  {
  }
}
