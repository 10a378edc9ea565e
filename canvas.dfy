/**
 * Resolution-independent layout and the resize handling of the scene
 * (src/components/MainCanvas.tsx): the clamp of the canvas width, the
 * placement of sprites as fractions of that width, the emblem's circular
 * mask, the centring of the label, and the remove-then-add registration of
 * the visualizer's tick callback.
 */
module Canvas {
  import opened Layout

  datatype Option<T> = None | Some(value: T)

  const SidebarWidth: real := 350.0
  const MaxWidth: real := 1920.0

  // ---------------------------------------------------------------------
  // The canvas width

  /**
   * The two CSS values getTailwindRemToPx reads: the root font size in px
   * and the `--spacing` custom property in rem.
   */
  datatype CssMetrics = CssMetrics(rootFontPx: real, spacingRem: real)

  /** getTailwindRemToPx(size): `size` Tailwind spacing units in px. */
  function TailwindRemToPx(css: CssMetrics, size: real): real
  {
    css.spacingRem * size * css.rootFontPx
  }

  function PaddingWidth(css: CssMetrics): real
  {
    TailwindRemToPx(css, 4.0) * 2.0
  }

  /** MIN_WIDTH: the canvas width left on a 1440 px window. */
  function MinWidth(css: CssMetrics): real
  {
    1440.0 - SidebarWidth - TailwindRemToPx(css, 1.0) - PaddingWidth(css)
  }

  /** The width left for the canvas in a window of the given inner width. */
  function ContainerWidth(innerWidth: real, css: CssMetrics): real
  {
    innerWidth - SidebarWidth - TailwindRemToPx(css, 1.0) - PaddingWidth(css)
  }

  /** The clamp in updateDimensions, with its two tests in the source's order. */
  function ClampWidth(containerWidth: real, minWidth: real): real
  {
    if containerWidth <= minWidth then minWidth
    else if containerWidth >= MaxWidth then MaxWidth
    else containerWidth
  }

  /** updateDimensions: the canvas width for a window of the given inner width. */
  function UpdateDimensions(innerWidth: real, css: CssMetrics): real
  {
    ClampWidth(ContainerWidth(innerWidth, css), MinWidth(css))
  }

  /**
   * The clamped width lies in [minWidth, 1920] and is the container width
   * itself when that is already in range.
   */
  lemma ClampWidthInRange(containerWidth: real, minWidth: real)
    requires minWidth <= MaxWidth
    ensures minWidth <= ClampWidth(containerWidth, minWidth) <= MaxWidth
    ensures minWidth <= containerWidth <= MaxWidth ==> ClampWidth(containerWidth, minWidth) == containerWidth
    ensures containerWidth <= minWidth ==> ClampWidth(containerWidth, minWidth) == minWidth
    ensures containerWidth >= MaxWidth ==> ClampWidth(containerWidth, minWidth) == MaxWidth
  {
  }

  /** Clamping twice is clamping once, and a wider container never gives a narrower canvas. */
  lemma ClampWidthIdempotentMonotone(w1: real, w2: real, minWidth: real)
    requires minWidth <= MaxWidth
    ensures ClampWidth(ClampWidth(w1, minWidth), minWidth) == ClampWidth(w1, minWidth)
    ensures w1 <= w2 ==> ClampWidth(w1, minWidth) <= ClampWidth(w2, minWidth)
  {
  }

  /**
   * With non-negative CSS metrics the minimum width is at most 1090 px, so
   * the range [MIN_WIDTH, 1920] is never empty and updateDimensions always
   * lands in it.  With the browser defaults (16 px, 0.25 rem) it is 1054 px.
   */
  lemma UpdateDimensionsInRange(innerWidth: real, css: CssMetrics)
    requires css.rootFontPx >= 0.0 && css.spacingRem >= 0.0
    ensures MinWidth(css) <= 1090.0
    ensures MinWidth(css) <= UpdateDimensions(innerWidth, css) <= MaxWidth
    ensures MinWidth(CssMetrics(16.0, 0.25)) == 1054.0
  {
    assert TailwindRemToPx(css, 1.0) >= 0.0;
    assert TailwindRemToPx(css, 4.0) >= 0.0;
    ClampWidthInRange(ContainerWidth(innerWidth, css), MinWidth(css));
  }

  // ---------------------------------------------------------------------
  // Sprite geometry

  datatype Rect = Rect(x: real, y: real, width: real, height: real)

  /** The geometry spriteResize gives a sprite: every coordinate is the canvas width times its fraction. */
  function Resolve(canvasWidth: real, a: SpriteAttributes): Rect
  {
    Rect(canvasWidth * a.xPercent, canvasWidth * a.yPercent,
         canvasWidth * a.widthPercent, canvasWidth * a.heightPercent)
  }

  function ScaleRect(r: Rect, k: real): Rect
  {
    Rect(k * r.x, k * r.y, k * r.width, k * r.height)
  }

  /** The height of the 16:9 canvas container of the given width. */
  function ContainerHeight(canvasWidth: real): real
  {
    canvasWidth * 9.0 / 16.0
  }

  predicate Within(r: Rect, canvasWidth: real)
  {
    0.0 <= r.x && r.x + r.width <= canvasWidth &&
    0.0 <= r.y && r.y + r.height <= ContainerHeight(canvasWidth)
  }

  /** Scaling the canvas width by k scales the position and size of every element by k. */
  lemma ResolveScales(canvasWidth: real, k: real, a: SpriteAttributes)
    ensures Resolve(k * canvasWidth, a) == ScaleRect(Resolve(canvasWidth, a), k)
  {
    assert k * canvasWidth * a.xPercent == k * (canvasWidth * a.xPercent);
    assert k * canvasWidth * a.yPercent == k * (canvasWidth * a.yPercent);
    assert k * canvasWidth * a.widthPercent == k * (canvasWidth * a.widthPercent);
    assert k * canvasWidth * a.heightPercent == k * (canvasWidth * a.heightPercent);
  }

  /**
   * A record whose box fits the unit-wide 16:9 canvas gives, at every
   * non-negative width, a rectangle inside the canvas.
   */
  lemma ResolveWithinCanvas(canvasWidth: real, a: SpriteAttributes)
    requires canvasWidth >= 0.0
    requires 0.0 <= a.xPercent && 0.0 <= a.yPercent && 0.0 <= a.widthPercent && 0.0 <= a.heightPercent
    requires a.xPercent + a.widthPercent <= 1.0 && a.yPercent + a.heightPercent <= AspectHeight
    ensures Within(Resolve(canvasWidth, a), canvasWidth)
  {
    assert canvasWidth * a.xPercent + canvasWidth * a.widthPercent == canvasWidth * (a.xPercent + a.widthPercent);
    assert canvasWidth * (a.xPercent + a.widthPercent) <= canvasWidth * 1.0;
    assert canvasWidth * a.yPercent + canvasWidth * a.heightPercent == canvasWidth * (a.yPercent + a.heightPercent);
    assert canvasWidth * (a.yPercent + a.heightPercent) <= canvasWidth * AspectHeight;
  }

  /**
   * The background covers exactly the 16:9 container of any width, and the
   * emblem lies inside the canvas.
   */
  lemma SceneFitsCanvas(canvasWidth: real)
    requires canvasWidth >= 0.0
    ensures Resolve(canvasWidth, BackgroundSprite) == Rect(0.0, 0.0, canvasWidth, ContainerHeight(canvasWidth))
    ensures Within(Resolve(canvasWidth, MajorSprite), canvasWidth)
  {
    ResolveWithinCanvas(canvasWidth, MajorSprite);
  }

  /** A Pixi sprite's placement fields. */
  class Sprite {
    var x: real
    var y: real
    var width: real
    var height: real

    constructor ()
      ensures x == 0.0 && y == 0.0 && width == 0.0 && height == 0.0
    {
      x, y, width, height := 0.0, 0.0, 0.0, 0.0;
    }

    function Bounds(): Rect
      reads this
    {
      Rect(x, y, width, height)
    }
  }

  /** spriteResize: place the sprite at the canvas width times each fraction. */
  method SpriteResize(canvasWidth: real, sprite: Sprite, attributes: SpriteAttributes)
    modifies sprite
    ensures sprite.Bounds() == Resolve(canvasWidth, attributes)
  {
    sprite.x := canvasWidth * attributes.xPercent;
    sprite.y := canvasWidth * attributes.yPercent;
    sprite.width := canvasWidth * attributes.widthPercent;
    sprite.height := canvasWidth * attributes.heightPercent;
  }

  // ---------------------------------------------------------------------
  // The emblem's mask

  datatype Circle = Circle(cx: real, cy: real, radius: real)

  /** The circle resizeCanvasEl draws into the emblem's mask. */
  function MaskCircle(canvasWidth: real, a: SpriteAttributes): Circle
  {
    Circle((a.xPercent + a.widthPercent / 2.0) * canvasWidth,
           (a.yPercent + a.heightPercent / 2.0) * canvasWidth,
           (a.widthPercent / 2.0) * canvasWidth)
  }

  /**
   * The mask is centred on the sprite's box and its radius is half the box
   * width; for the square emblem it is the circle inscribed in the box, and
   * its centre is the visualizer's centre.
   */
  lemma MaskInscribed(canvasWidth: real, a: SpriteAttributes)
    ensures MaskCircle(canvasWidth, a).cx == Resolve(canvasWidth, a).x + Resolve(canvasWidth, a).width / 2.0
    ensures MaskCircle(canvasWidth, a).cy == Resolve(canvasWidth, a).y + Resolve(canvasWidth, a).height / 2.0
    ensures MaskCircle(canvasWidth, a).radius == Resolve(canvasWidth, a).width / 2.0
    ensures a == MajorSprite ==> MaskCircle(canvasWidth, a).radius == Resolve(canvasWidth, a).height / 2.0
    ensures a == MajorSprite ==>
      MaskCircle(canvasWidth, a).cx == canvasWidth * AudioVisualizerSprite.xPercent &&
      MaskCircle(canvasWidth, a).cy == canvasWidth * AudioVisualizerSprite.yPercent
  {
  }

  // ---------------------------------------------------------------------
  // The label and the ticker

  /** A Pixi text: its content, its position and its measured width. */
  class Label {
    var text: string
    var x: real
    var y: real
    var textWidth: real

    /** The text Pixi creates, at (100, 100); the width "Hello World" measures at is an input. */
    constructor (measuredWidth: real)
      ensures text == "Hello World" && x == 100.0 && y == 100.0 && textWidth == measuredWidth
    {
      text, x, y, textWidth := "Hello World", 100.0, 100.0, measuredWidth;
    }
  }

  /** A tick callback; every call of resizeCanvasEl creates a new one, told apart by id. */
  datatype Callback = VisualizerCallback(id: nat, width: real, bufferLength: nat)

  /** `s` without any occurrence of `f`, keeping the order of the rest. */
  function Without(s: seq<Callback>, f: Callback): seq<Callback>
  {
    if s == [] then []
    else if s[|s| - 1] == f then Without(s[..|s| - 1], f)
    else Without(s[..|s| - 1], f) + [s[|s| - 1]]
  }

  function Count(s: seq<Callback>, f: Callback): nat
  {
    if s == [] then 0 else Count(s[..|s| - 1], f) + (if s[|s| - 1] == f then 1 else 0)
  }

  /** Removing f leaves no f behind and every other callback in place. */
  lemma {:induction false} WithoutRemoves(s: seq<Callback>, f: Callback, g: Callback)
    ensures Count(Without(s, f), f) == 0
    ensures g != f ==> Count(Without(s, f), g) == Count(s, g)
    ensures |Without(s, f)| == |s| - Count(s, f)
  {
    if s != [] {
      var init := s[..|s| - 1];
      WithoutRemoves(init, f, g);
      if s[|s| - 1] != f {
        CountAppend(Without(init, f), s[|s| - 1], f);
        CountAppend(Without(init, f), s[|s| - 1], g);
      }
    }
  }

  lemma CountAppend(s: seq<Callback>, x: Callback, f: Callback)
    ensures Count(s + [x], f) == Count(s, f) + (if x == f then 1 else 0)
  {
    assert (s + [x])[..|s + [x]| - 1] == s;
  }

  /** Pixi's Ticker: the callbacks it runs on every frame, in order. */
  class Ticker {
    var listeners: seq<Callback>

    constructor ()
      ensures listeners == []
    {
      listeners := [];
    }

    /** ticker.add: the callback runs after those already registered. */
    method Add(fn: Callback)
      modifies this
      ensures listeners == old(listeners) + [fn]
    {
      listeners := listeners + [fn];
    }

    /** ticker.remove: every registration of the callback goes. */
    method Remove(fn: Callback)
      modifies this
      ensures listeners == Without(old(listeners), fn)
    {
      listeners := Without(listeners, fn);
    }
  }

  /**
   * The state of one mounted MainCanvas that resizing touches: the Pixi
   * objects, the width the layout uses (widthRef), whether the Pixi
   * application and the analyser exist yet, and the last registered tick
   * callback (tickerEventTemp).
   */
  class Scene {
    var ready: bool
    var hasAnalyser: bool
    var width: real
    var fftSize: nat
    var tickerEventTemp: Option<Callback>
    var nextId: nat
    var mask: Option<Circle>
    const background: Sprite
    const major: Sprite
    const audioText: Label
    const ticker: Ticker

    /** At most one visualizer callback is registered, and it is the remembered one. */
    ghost predicate Valid()
      reads this, ticker
    {
      background != major &&
      |ticker.listeners| <= 1 &&
      (forall k :: 0 <= k < |ticker.listeners| ==> Some(ticker.listeners[k]) == tickerEventTemp)
    }

    /**
     * The component's first render: canvasWidth starts at MIN_WIDTH. The
     * width the label's initial text measures at is an input.
     */
    constructor (minWidth: real, labelWidth: real)
      ensures Valid() && fresh(background) && fresh(major) && fresh(audioText) && fresh(ticker)
      ensures !ready && !hasAnalyser && width == minWidth
      ensures tickerEventTemp == None && ticker.listeners == [] && mask == None
      ensures audioText.textWidth == labelWidth && nextId == 0 && fftSize == 2048
    {
      ready, hasAnalyser := false, false;
      width, fftSize := minWidth, 2048;
      tickerEventTemp, nextId, mask := None, 0, None;
      background := new Sprite();
      major := new Sprite();
      audioText := new Label(labelWidth);
      ticker := new Ticker();
    }

    /**
     * resizeCanvasEl: place background and emblem, redraw the mask, and
     * replace the visualizer callback by a new one with the current width.
     */
    method ResizeCanvasEl()
      requires Valid()
      modifies this, background, major, ticker
      ensures Valid()
      ensures ready == old(ready) && hasAnalyser == old(hasAnalyser) && width == old(width)
      ensures !ready ==>
        unchanged(this) && unchanged(background) && unchanged(major) && unchanged(ticker)
      ensures ready ==>
        background.Bounds() == Resolve(width, BackgroundSprite) &&
        major.Bounds() == Resolve(width, MajorSprite) &&
        mask == Some(MaskCircle(width, MajorSprite))
      ensures ready && !hasAnalyser ==>
        ticker.listeners == old(ticker.listeners) && tickerEventTemp == old(tickerEventTemp) &&
        nextId == old(nextId) && fftSize == old(fftSize)
      ensures ready && hasAnalyser ==>
        fftSize == 128 && nextId == old(nextId) + 1 &&
        tickerEventTemp == Some(VisualizerCallback(old(nextId), width, 64)) &&
        ticker.listeners == [VisualizerCallback(old(nextId), width, 64)]
    {
      if !ready {
        return;
      }
      SpriteResize(width, background, BackgroundSprite);
      SpriteResize(width, major, MajorSprite);
      mask := Some(MaskCircle(width, MajorSprite));
      if !hasAnalyser {
        return;
      }
      fftSize := 128;
      var bufferLength := fftSize / 2;
      if tickerEventTemp.Some? {
        ticker.Remove(tickerEventTemp.value);
      }
      OnlyRemembered(old(ticker.listeners), old(tickerEventTemp));
      var callback := VisualizerCallback(nextId, width, bufferLength);
      nextId := nextId + 1;
      tickerEventTemp := Some(callback);
      ticker.Add(callback);
    }

    /** resizeAudioText: its horizontal midpoint goes to 0.5·width and its top edge to 0.32·width. */
    method ResizeAudioText()
      modifies audioText
      ensures !ready ==> unchanged(audioText)
      ensures ready ==>
        audioText.x + audioText.textWidth / 2.0 == width * AudioText.xPercent &&
        audioText.y == width * AudioText.yPercent
      ensures audioText.text == old(audioText.text) && audioText.textWidth == old(audioText.textWidth)
    {
      if ready {
        audioText.y := width * AudioText.yPercent;
        audioText.x := width * AudioText.xPercent - audioText.textWidth / 2.0;
      }
    }

    /**
     * The effect on the song and author names: set the audioText's text and
     * re-centre it. The width the text measures at is an input.
     */
    method SetLabelText(songName: string, authorName: string, measuredWidth: real)
      modifies audioText
      ensures !ready ==> unchanged(audioText)
      ensures ready ==>
        audioText.text == songName + " - " + authorName && audioText.textWidth == measuredWidth &&
        audioText.x + measuredWidth / 2.0 == width * AudioText.xPercent &&
        audioText.y == width * AudioText.yPercent
    {
      if ready {
        audioText.text := songName + " - " + authorName;
        audioText.textWidth := measuredWidth;
        ResizeAudioText();
      }
    }

    /**
     * The effect on a new canvas width: update widthRef, then resize the
     * sprites, the visualizer callback and the audioText.
     */
    method OnCanvasWidth(newWidth: real)
      requires Valid()
      modifies this, background, major, ticker, audioText
      ensures Valid() && width == newWidth && ready == old(ready) && hasAnalyser == old(hasAnalyser)
      ensures audioText.text == old(audioText.text) && audioText.textWidth == old(audioText.textWidth)
      ensures !ready ==>
        unchanged(background) && unchanged(major) && unchanged(audioText) && unchanged(ticker) &&
        mask == old(mask) && tickerEventTemp == old(tickerEventTemp) &&
        nextId == old(nextId) && fftSize == old(fftSize)
      ensures ready ==>
        background.Bounds() == Resolve(newWidth, BackgroundSprite) &&
        major.Bounds() == Resolve(newWidth, MajorSprite) &&
        mask == Some(MaskCircle(newWidth, MajorSprite)) &&
        audioText.x + audioText.textWidth / 2.0 == newWidth * AudioText.xPercent &&
        audioText.y == newWidth * AudioText.yPercent
      ensures ready && !hasAnalyser ==>
        ticker.listeners == old(ticker.listeners) && tickerEventTemp == old(tickerEventTemp) &&
        nextId == old(nextId) && fftSize == old(fftSize)
      ensures ready && hasAnalyser ==>
        fftSize == 128 && nextId == old(nextId) + 1 &&
        tickerEventTemp == Some(VisualizerCallback(old(nextId), newWidth, 64)) &&
        ticker.listeners == [VisualizerCallback(old(nextId), newWidth, 64)]
    {
      width := newWidth;
      ResizeCanvasEl();
      ResizeAudioText();
    }

    /**
     * The end of the mount effect once initPixi has resolved, as written:
     * the scene is resized while no analyser exists, and only then is the
     * analyser made. So this first resize registers no visualizer callback.
     */
    method FinishMount()
      requires Valid() && !ready && !hasAnalyser
      modifies this, background, major, ticker
      ensures Valid() && ready && hasAnalyser && width == old(width)
      ensures background.Bounds() == Resolve(width, BackgroundSprite)
      ensures major.Bounds() == Resolve(width, MajorSprite)
      ensures mask == Some(MaskCircle(width, MajorSprite))
      ensures ticker.listeners == old(ticker.listeners) && tickerEventTemp == old(tickerEventTemp)
      ensures nextId == old(nextId) && fftSize == old(fftSize)
    {
      ready := true;
      ResizeCanvasEl();
      hasAnalyser := true;
    }

    /**
     * The end of the mount effect with the analyser made before the first
     * resize: that resize registers the visualizer callback for the
     * current width.
     */
    method FinishMountCorrected()
      requires Valid() && !ready && !hasAnalyser
      modifies this, background, major, ticker
      ensures Valid() && ready && hasAnalyser && width == old(width)
      ensures background.Bounds() == Resolve(width, BackgroundSprite)
      ensures major.Bounds() == Resolve(width, MajorSprite)
      ensures mask == Some(MaskCircle(width, MajorSprite))
      ensures fftSize == 128 && nextId == old(nextId) + 1
      ensures tickerEventTemp == Some(VisualizerCallback(old(nextId), width, 64))
      ensures ticker.listeners == [VisualizerCallback(old(nextId), width, 64)]
    {
      ready := true;
      hasAnalyser := true;
      ResizeCanvasEl();
    }
  }

  /** If every registered callback is the remembered one, removing it empties the list. */
  lemma OnlyRemembered(s: seq<Callback>, remembered: Option<Callback>)
    requires |s| <= 1
    requires forall k :: 0 <= k < |s| ==> Some(s[k]) == remembered
    ensures remembered.Some? ==> Without(s, remembered.value) == []
    ensures remembered.None? ==> s == []
  {
    if |s| == 1 {
      assert Some(s[0]) == remembered;
      assert s[..0] == [];
    }
  }

  /**
   * Remove-then-add keeps the ticker to one copy of the new callback
   * whatever was registered before, while add alone would keep every
   * earlier copy.
   */
  lemma {:induction false} ReplaceLeavesOne(s: seq<Callback>, old_: Callback, new_: Callback)
    requires forall k :: 0 <= k < |s| ==> s[k] == old_
    requires new_ != old_
    ensures Without(s, old_) + [new_] == [new_]
    ensures Count(s + [new_], old_) == |s|
  {
    if s != [] {
      var init := s[..|s| - 1];
      assert forall k :: 0 <= k < |init| ==> init[k] == old_;
      ReplaceLeavesOne(init, old_, new_);
      assert s == init + [old_];
      CountAppend(init, old_, old_);
      CountAppend(s, new_, old_);
      CountAppend(init, new_, old_);
    }
  }

  /**
   * As written, a freshly mounted scene whose width has not changed since
   * the first render has no visualizer callback on its ticker, so no bars
   * are drawn until a later width change resizes the scene again.
   */
  method MountAsWritten(minWidth: real) returns (listeners: seq<Callback>)
    ensures listeners == []
  {
    var scene := new Scene(minWidth, 0.0);
    scene.FinishMount();
    listeners := scene.ticker.listeners;
  }

  /** With the analyser made first, a freshly mounted scene holds exactly one callback, for its width. */
  method MountCorrected(minWidth: real) returns (listeners: seq<Callback>)
    ensures listeners == [VisualizerCallback(0, minWidth, 64)]
  {
    var scene := new Scene(minWidth, 0.0);
    scene.FinishMountCorrected();
    listeners := scene.ticker.listeners;
  }
}
