# Web Music Visualizer — a Dafny model of its core

The Web Music Visualizer is a browser app. It plays an audio file and draws a
radial bar spectrum around a round emblem image on a 16:9 canvas. An
analyser node samples the playing audio in decibels each frame. A tick
callback gives each of 48 bands one smoothing step towards the band's level.
It pulses the bars' start radius with the overall energy and redraws one
coloured stroke per band. Every element is placed as a fraction of the canvas
width, and that width is clamped to a range. The audio player component owns
the play/pause state, the progress bar (click and drag seeking), the volume
slider with mute, and the "m:ss" time display.

The model has one module per concern:

- `Layout` (`layout.dfy`): the constant placement records.
- `Canvas` (`canvas.dfy`): the width clamp, sprite placement, the emblem's mask, the label's
  centring, and the remove-then-add registration of the tick callback. Pixi objects and the
  mounted scene are classes.
- `Color` (`color.dfy`): `lerpColor`, with JavaScript's 32-bit shift, mask and OR semantics
  written out on integers.
- `Signal` (`signal.dfy`): `dBToHeight` and the tick callback. The persistent smoothing state is a
  class holding the 48-entry height array. The callback's loops are methods proved against
  specification functions.
- `TimeFormat` (`timefmt.dfy`): `formatTime` over JavaScript numbers (finite, NaN, ±Infinity),
  with `%` truncating as in JavaScript.
- `Player` (`player.dfy`): the audio player. It is a class whose fields are the React state and the
  parts of the `<audio>` element the handlers write. Requests to the element (play, pause, seek)
  are recorded in a sequence.
- `CoverFit` (`coverfit.dfy`): the cover fit of a background image to 1920x1080.

JavaScript numbers are reals. `Math.pow(norm, 1.5)` is a function parameter `curve`. Only the
properties of that curve a proof needs are assumed, in `Signal.ValidCurve`: it fixes 0 and 1, it is
non-negative, and it stays at most 1 on [0, 1]. Bars are recorded in polar form: bar index (the
angle is index·2π/48), inner radius, outer radius, colour and width. They are not turned into
Cartesian end points with cos and sin.

## Model

| member | source | states |
|---|---|---|
| Layout.AllFractionsInUnitRange | src/components/PixiCanvas.ts:93-133 | every fraction of the five placement records lies in [0, 1] |
| Layout.BackgroundSpansCanvas | src/components/PixiCanvas.ts:100-105 | the background starts at the origin and spans the full width and 9/16 of it in height |
| Layout.EmblemSquareAndCentred | src/components/PixiCanvas.ts:107-112 | the emblem box is square and horizontally centred |
| Layout.CentresCoincide | src/components/PixiCanvas.ts:107-133 | the emblem's centre is the visualizer's centre and the emitter's position; the label shares the vertical axis |
| Layout.MaskInsideBaseRadius | src/components/PixiCanvas.ts:107-119 | the emblem's mask radius (0.075 of the width) is below the bars' base radius (0.08) |
| Canvas.ClampWidthInRange | src/components/MainCanvas.tsx:85-87 | when minWidth ≤ 1920 the clamped width lies in [minWidth, 1920]; the input is returned when already in range, and each bound when below or above it |
| Canvas.ClampWidthIdempotentMonotone | src/components/MainCanvas.tsx:85-87 | clamping twice equals clamping once, and a wider container never gives a narrower canvas |
| Canvas.UpdateDimensionsInRange | src/components/MainCanvas.tsx:22-29 | with non-negative CSS metrics MIN_WIDTH is at most 1090, so updateDimensions always lands in [MIN_WIDTH, 1920]; with 16 px and 0.25 rem MIN_WIDTH is 1054 |
| Canvas.ResolveScales | src/components/MainCanvas.tsx:171-177 | scaling the canvas width by k scales every resolved position and size by k |
| Canvas.ResolveWithinCanvas | src/components/MainCanvas.tsx:171-177 | a record whose box fits the unit-wide 16:9 canvas resolves inside the canvas at every width |
| Canvas.SceneFitsCanvas | src/components/MainCanvas.tsx:186-187 | the background resolves to exactly the 16:9 container, and the emblem lies inside it |
| Canvas.SpriteResize | src/components/MainCanvas.tsx:171-177 | the sprite's x, y, width and height become the canvas width times the record's four fractions |
| Canvas.MaskInscribed | src/components/MainCanvas.tsx:189-192 | the mask circle is centred on the sprite's box with half its width as radius; for the emblem it is the inscribed circle and its centre is the visualizer's |
| Canvas.WithoutRemoves | src/components/MainCanvas.tsx:208-210 | removing a callback leaves no copy of it, keeps every other callback's count, and shortens the list by the removed count |
| Canvas.CountAppend | src/components/MainCanvas.tsx:269 | adding a callback raises its count by one and leaves the others alone |
| Canvas.Ticker.Add | src/components/MainCanvas.tsx:269 | the callback is appended after the registered ones |
| Canvas.Ticker.Remove | src/components/MainCanvas.tsx:208-210 | every registration of the callback is dropped, in order otherwise |
| Canvas.Label.constructor | src/components/PixiCanvas.ts:68-79 | the label starts as "Hello World" at (100, 100), with the width that text measures at as an input |
| Canvas.Scene.constructor | src/components/MainCanvas.tsx:70 | the first render: the width is MIN_WIDTH, nothing is registered, there is no mask, and the analyser has its default FFT size 2048 |
| Canvas.Scene.ResizeCanvasEl | src/components/MainCanvas.tsx:180-270 | before Pixi is ready nothing changes; once ready, background and emblem are placed and the mask is redrawn; with an analyser the FFT size becomes 128 and the ticker holds exactly one callback, the new one, for 64 bins; the "at most one callback" invariant is kept |
| Canvas.Scene.ResizeAudioText | src/components/MainCanvas.tsx:294-303 | once ready, the label's horizontal midpoint is at 0.5·width and its top edge at 0.32·width; its text and measured width are unchanged |
| Canvas.Scene.SetLabelText | src/components/MainCanvas.tsx:160-168 | the label reads "song - author" and is re-centred horizontally for its new measured width |
| Canvas.Scene.OnCanvasWidth | src/components/MainCanvas.tsx:304-309 | the width becomes the new one; before Pixi is ready nothing else changes; once ready the sprites, the mask and both label coordinates follow the new width; without an analyser the ticker is untouched, with one it holds exactly the new callback for that width; the "at most one callback" invariant is kept |
| Canvas.Scene.FinishMount | src/components/MainCanvas.tsx:92-109 | as written, the first resize after initPixi runs before the analyser exists: background, emblem and mask are placed for the unchanged width, but the ticker and the remembered callback are untouched |
| Canvas.Scene.FinishMountCorrected | src/components/MainCanvas.tsx:92-109 | with the analyser made before the first resize, that resize places the scene and registers exactly one callback, for the current width and 64 bins |
| Canvas.MountAsWritten | src/components/MainCanvas.tsx:92-109 | as written, a freshly mounted scene has no visualizer callback on its ticker |
| Canvas.MountCorrected | src/components/MainCanvas.tsx:92-109 | with the analyser made first, a freshly mounted scene holds exactly one callback, for its width |
| Canvas.OnlyRemembered | src/components/MainCanvas.tsx:208-210 | if every registered callback is the remembered one, removing it empties the ticker |
| Canvas.ReplaceLeavesOne | src/components/MainCanvas.tsx:208-269 | remove-then-add leaves one copy of the new callback, while add alone would keep all earlier copies |
| Color.LerpColorEndpoints | src/components/MainCanvas.tsx:45-59 | for 24-bit colours, lerpColor at t = 0 is the first colour and at t = 1 the second |
| Color.LerpColorValue | src/components/MainCanvas.tsx:54-58 | for t in [0, 1] each rounded channel is a byte, and the 32-bit shift-and-OR pack equals r·65536 + g·256 + b |
| Color.ChannelsAt | src/components/MainCanvas.tsx:46-56 | the channels of the blend are the rounded blends of the two colours' channels |
| Color.LerpColorChannels | src/components/MainCanvas.tsx:45-59 | for t in [0, 1] the blend is a 24-bit colour and each channel lies between the endpoint channels |
| Color.LerpColorMonotone | src/components/MainCanvas.tsx:45-59 | as t grows in [0, 1] every channel moves monotonically from c1's channel towards c2's |
| Color.MixBetween | src/components/MainCanvas.tsx:54-56 | a rounded blend of two integers with t in [0, 1] stays between them |
| Color.MixMonotone | src/components/MainCanvas.tsx:54-56 | a rounded channel blend is monotone in t |
| Color.PackBytes | src/components/MainCanvas.tsx:58 | on three bytes, the 32-bit shift-and-OR pack of r, g and b is r·65536 + g·256 + b |
| Color.PackHigh | src/components/MainCanvas.tsx:58 | on two bytes, OR of r shifted left by 16 and g shifted left by 8 is r·65536 + g·256 |
| Color.ShiftByte | src/components/MainCanvas.tsx:58 | a byte shifted left by 8 or 16 is multiplied by 2^8 or 2^16 |
| Color.OrDisjoint | src/components/MainCanvas.tsx:58 | OR of a multiple of 2^k and a number below 2^k is their sum |
| Color.ChannelsOfBytes | src/components/MainCanvas.tsx:46-52 | `>> 16 & 0xff`, `>> 8 & 0xff` and `& 0xff` read back the three bytes of a packed colour |
| Color.ChannelsRecompose | src/components/MainCanvas.tsx:46-52 | every 24-bit colour is the pack of its three channels |
| Color.Wraps | src/components/MainCanvas.tsx:46-58 | ToUint32 and ToInt32 change their argument by a multiple of 2^32 |
| Color.Round | src/components/MainCanvas.tsx:54-56 | Math.round returns the integer within half a unit of its argument, halves rounding up |
| Color.LowByte | src/components/MainCanvas.tsx:46-52 | `& 0xff` yields a byte |
| Signal.DbToHeightProperties | src/components/MainCanvas.tsx:31-40 | dBToHeight lies in [0, 50]; it is 0 at or below -60 dB and 50 at or above 0 dB, linear in between, and monotone (modelled although nothing in the source calls it; the tick uses norm) |
| Signal.BandIndexInBounds | src/components/MainCanvas.tsx:240-242 | every index i·binsPerBar + j the band loop reads is inside the snapshot |
| Signal.BandSpanInBounds | src/components/MainCanvas.tsx:225-241 | band i's bins end at or before the snapshot's end |
| Signal.DefaultBucketing | src/components/MainCanvas.tsx:203-225 | with FFT size 128 the snapshot has 64 bins and every band is one bin |
| Signal.Band | src/components/MainCanvas.tsx:239-243 | band i has binsPerBar bins |
| Signal.BandAt | src/components/MainCanvas.tsx:241-242 | bin m of band i is bin i·binsPerBar + m of the snapshot |
| Signal.Strokes | src/components/MainCanvas.tsx:237-266 | one stroke is drawn per band |
| Signal.StrokesAt | src/components/MainCanvas.tsx:252-265 | stroke k has band k's height, its own colour, the centre, and starts at the dynamic radius |
| Signal.StrokesSnoc | src/components/MainCanvas.tsx:237-266 | drawing one more band appends one stroke |
| Signal.TotalEnergy | src/components/MainCanvas.tsx:229-232 | the energy loop computes the sum of max(0, dB + 100) over all bins |
| Signal.BandSum | src/components/MainCanvas.tsx:239-243 | the band loop computes the sum of the band's bins |
| Signal.BandTarget | src/components/MainCanvas.tsx:239-246 | the loop body computes the band's target height curve(norm(avg))·baseRadius·0.7 |
| Signal.Visualizer.constructor | src/components/MainCanvas.tsx:42-43 | 48 heights at 0, energy 0, nothing drawn |
| Signal.Visualizer.Tick | src/components/MainCanvas.tsx:211-267 | paused: nothing changes; playing: the energy takes one 0.05 step towards the average energy, every height takes one 0.2 step towards its band's target, and the strokes are those of the new heights at the dynamic radius |
| Signal.Visualizer.DrawBars | src/components/MainCanvas.tsx:237-266 | the band loop leaves the array at the smoothed heights and draws their strokes in band order |
| Signal.DrawStep | src/components/MainCanvas.tsx:249-265 | one iteration extends both the updated prefix of the array and the drawing by one band |
| Signal.EnergySumBounds | src/components/MainCanvas.tsx:229-232 | the total energy is never negative, and at most 100 per bin when no bin exceeds 0 dB |
| Signal.AvgEnergyRange | src/components/MainCanvas.tsx:233 | the normalised energy is never negative, and at most 1 when no bin exceeds 0 dB |
| Signal.ConstantSums | src/components/MainCanvas.tsx:229-243 | a snapshot whose bins are all c sums to c·length and has energy max(0, c + 100)·length |
| Signal.SumNonPositive | src/components/MainCanvas.tsx:239-243 | a sum of levels of at most 0 dB is at most 0 |
| Signal.EaseBetween | src/components/MainCanvas.tsx:234 | a smoothing step with weight in [0, 1] lands between the old value and the target and shrinks the gap by the factor 1 − k |
| Signal.SmoothingStep | src/components/MainCanvas.tsx:244-249 | each band's target is non-negative, and its height moves 20 % of the way there without overshooting |
| Signal.TargetHeightBounded | src/components/MainCanvas.tsx:244-246 | when no bin exceeds 0 dB a band's target lies in [0, 0.7·baseRadius] |
| Signal.HeightsStayBounded | src/components/MainCanvas.tsx:249 | heights in [0, 0.7·baseRadius] stay there after a tick when no bin exceeds 0 dB |
| Signal.DynamicRadiusBounds | src/components/MainCanvas.tsx:235 | the pulse never shrinks the radius and adds at most 40 % while the energy is at most 1 |
| Signal.EnergyStaysInUnitRange | src/components/MainCanvas.tsx:233-234 | the smoothed energy stays in [0, 1] from tick to tick when no bin exceeds 0 dB |
| Signal.BarsStartOutsideEmblem | src/components/MainCanvas.tsx:219-253 | for a positive width every bar starts outside the emblem's mask and shares its centre |
| Signal.StrokesWellFormed | src/components/MainCanvas.tsx:252-265 | every stroke has a 24-bit colour, starts at the radius and goes outward; bar 0 has the low colour 0x00cfff |
| Signal.EaseNGap | src/components/MainCanvas.tsx:249 | after n steps towards a fixed target the gap is (1 − k)^n times the initial gap |
| Signal.EaseNMonotone | src/components/MainCanvas.tsx:249 | towards a fixed target the value moves monotonically and never overshoots |
| Signal.ConstantBandAverage | src/components/MainCanvas.tsx:239-244 | in a snapshot whose bins are all c every band averages c |
| Signal.ConstantAverage | src/components/MainCanvas.tsx:244 | a non-empty run of equal levels averages that level |
| Signal.SilenceTargets | src/components/MainCanvas.tsx:229-246 | at -100 dB everywhere the energy target and every band target are 0, and the radius is the base radius |
| Signal.FullScaleTargets | src/components/MainCanvas.tsx:229-246 | at 0 dB everywhere the energy target is 1, every band target is 0.7·baseRadius, and the radius at energy 1 is 1.4·baseRadius |
| TimeFormat.Trunc | src/components/AudioPlayer.tsx:134 | Math.trunc rounds towards zero: for x ≥ 0 the result is at most x and within 1 below it, for x < 0 at least x and within 1 above it |
| TimeFormat.NatToString | src/components/AudioPlayer.tsx:136 | toString of a natural is a non-empty digit string, one digit exactly when below 10 |
| TimeFormat.PadStart | src/components/AudioPlayer.tsx:136 | padStart gives at least the requested length and never shortens |
| TimeFormat.PadStartShape | src/components/AudioPlayer.tsx:136 | padStart keeps the string as a suffix and fills the front with the pad character |
| TimeFormat.ParseNatToString | src/components/AudioPlayer.tsx:136 | reading back the digits toString writes gives the number |
| TimeFormat.PadTwoDigits | src/components/AudioPlayer.tsx:136 | a number below 100 padded to two digits is two digits that read back as the number |
| TimeFormat.ClockParts | src/components/AudioPlayer.tsx:133-134 | for t ≥ 0 the minutes are ⌊t⌋ div 60 and the seconds ⌊t⌋ mod 60 |
| TimeFormat.ClockOfNats | src/components/AudioPlayer.tsx:136 | for non-negative parts the minutes are unpadded digits and the seconds are padded to two |
| TimeFormat.ClockReadsBack | src/components/AudioPlayer.tsx:136 | "m:ss" built from m and r < 60 is digits, a colon and two digits that read back as m and r |
| TimeFormat.FormatTimeNonNegative | src/components/AudioPlayer.tsx:130-137 | for t ≥ 0 formatTime is "m:ss" with ss < 60 and 60·m + ss = ⌊t⌋ |
| TimeFormat.FormatTimeNaN | src/components/AudioPlayer.tsx:131 | NaN shows as "0:00" |
| TimeFormat.FormatTimeNegative | src/components/AudioPlayer.tsx:133-136 | negative times are not clamped: -30 s shows as "-1:-30" |
| Player.ClampPercent | src/components/AudioPlayer.tsx:170 | the drag percentage is clamped to [0, 100]: unchanged in range, and 0 or 100 outside it |
| Player.AudioPlayer.SliderValue | src/components/AudioPlayer.tsx:214 | the slider shows 0 when muted and the volume otherwise, always in [0, 1] |
| Player.AudioPlayer.AsWritten | src/components/AudioPlayer.tsx:17-20 | the first render as written: state volume 0.5, not muted, nothing playing, and the element at its default volume 1.0 |
| Player.AudioPlayer.constructor | src/components/AudioPlayer.tsx:102-103 | corrected (the volume finding): the element starts at the state volume 0.5, in step with the slider; the source's first render is Player.AudioPlayer.AsWritten |
| Player.AudioPlayer.LoadedMetadata | src/components/AudioPlayer.tsx:40-42 | for any reported duration (finite, NaN or ±Infinity) the duration state becomes it, or 0 for NaN; nothing else changes |
| Player.AudioPlayer.TogglePlay | src/components/AudioPlayer.tsx:46-53 | the playing flag flips, with or without an element; a mounted element is asked to pause if it was playing and to play otherwise |
| Player.AudioPlayer.OnEnded | src/components/AudioPlayer.tsx:195 | the playing flag clears and nothing else changes |
| Player.AudioPlayer.ProgressClick | src/components/AudioPlayer.tsx:55-64 | with an element and a finite seek time, the progress becomes the unclamped click percentage and a seek to that share of the duration is requested; a non-finite seek time (an infinite duration) throws at the currentTime assignment and nothing changes |
| Player.AudioPlayer.TimeUpdate | src/components/AudioPlayer.tsx:66-72 | with an element, the progress is the time over a finite non-zero duration times 100, or 0 over +Infinity, and the current time is the element's |
| Player.AudioPlayer.UpdateProgress | src/components/AudioPlayer.tsx:152-158 | with an element and a finite seek time, the progress becomes the percentage and a seek to that share of the duration is requested; otherwise the assignment throws and nothing changes |
| Player.AudioPlayer.MouseDown | src/components/AudioPlayer.tsx:160-163 | dragging starts, even when the click's seek then throws, and the pressed point is seeked as a click |
| Player.AudioPlayer.MouseMove | src/components/AudioPlayer.tsx:165-172 | while dragging, with an element and a finite seek time, the pointer's percentage clamped to [0, 100] becomes the progress and is seeked; otherwise nothing changes |
| Player.AudioPlayer.MouseUp | src/components/AudioPlayer.tsx:174-176 | dragging stops and nothing else changes |
| Player.AudioPlayer.HandleVolumeChange | src/components/AudioPlayer.tsx:104-115 | the state and the element take the slider's value, muted exactly when it is 0, and the element is then in step with the slider |
| Player.AudioPlayer.ToggleMute | src/components/AudioPlayer.tsx:117-127 | with an element, muting sets it to 0 and unmuting restores the state volume; the volume never changes and an element in step stays in step |
| Player.DragSeekInTrack | src/components/AudioPlayer.tsx:165-172 | a drag seek always lands in [0, duration] |
| Player.ClampPercentMonotone | src/components/AudioPlayer.tsx:170 | the clamp is monotone and idempotent |
| Player.ClickPastBar | src/components/AudioPlayer.tsx:55-64 | a click past the bar's right edge gives a progress above 100, because the click path has no clamp |
| Player.ProgressOfSeek | src/components/AudioPlayer.tsx:66-72 | seeking to a percentage and reading the progress back at that time gives the percentage |
| Player.SeekOfProgress | src/components/AudioPlayer.tsx:152-158 | seeking to the progress of a time gives that time back |
| Player.TogglePlayTwice | src/components/AudioPlayer.tsx:46-53 | two toggles on a mounted element restore the flag and request play and pause in alternation |
| Player.ToggleMuteTwice | src/components/AudioPlayer.tsx:117-127 | on a player in step with its slider, two mute toggles restore the element's volume and the mute flag |
| Player.MuteTwiceAsWritten | src/components/AudioPlayer.tsx:102-127 | as written, a fresh player's element plays at 1.0 while the slider shows 0.5, and after mute and unmute it plays at 0.5 |
| Player.MuteTwiceCorrected | src/components/AudioPlayer.tsx:102-127 | with the initial volume applied, slider, element and element after two toggles all read 0.5 |
| Player.SliderShowsElementVolume | src/components/AudioPlayer.tsx:214 | in step, the element plays at exactly the slider's value, and at 0 when muted |
| Canvas.TailwindRemToPx | src/components/MainCanvas.tsx:22-25 | getTailwindRemToPx: a number of Tailwind spacing units converted to px from the `--spacing` value and the root font size (bounded through Canvas.UpdateDimensionsInRange) |
| Canvas.MinWidth | src/components/MainCanvas.tsx:27-29 | MIN_WIDTH: the canvas width a 1440 px window leaves after the sidebar, the gap and the padding (1054 px with browser defaults, by Canvas.UpdateDimensionsInRange) |
| Canvas.ContainerWidth | src/components/MainCanvas.tsx:84 | the width a window leaves for the canvas after the sidebar, the gap and the padding |
| Canvas.ClampWidth | src/components/MainCanvas.tsx:85-87 | the width clamp with the minimum tested first; its range, identity and idempotence are Canvas.ClampWidthInRange and Canvas.ClampWidthIdempotentMonotone |
| Canvas.UpdateDimensions | src/components/MainCanvas.tsx:82-88 | the canvas width for a window width; it always lands in [MIN_WIDTH, 1920] by Canvas.UpdateDimensionsInRange |
| Canvas.Resolve | src/components/MainCanvas.tsx:171-177 | the geometry spriteResize gives a record at a canvas width; Canvas.SpriteResize writes exactly it, Canvas.ResolveScales and Canvas.ResolveWithinCanvas state its scaling and containment |
| Canvas.MaskCircle | src/components/MainCanvas.tsx:189-192 | the emblem's mask circle; Canvas.MaskInscribed proves it is the inscribed circle of the emblem's box, centred on the visualizer |
| Color.Mix | src/components/MainCanvas.tsx:54-56 | one rounded channel blend; Color.MixBetween and Color.MixMonotone bound it |
| Color.Pack | src/components/MainCanvas.tsx:58 | the 32-bit shift-and-OR pack; Color.PackBytes proves it is r·65536 + g·256 + b on bytes |
| Color.LerpColor | src/components/MainCanvas.tsx:45-59 | lerpColor; its channels, range and endpoints are Color.ChannelsAt, Color.LerpColorChannels and Color.LerpColorEndpoints |
| Signal.DbToHeight | src/components/MainCanvas.tsx:35-40 | dBToHeight, modelled although nothing in the source calls it (the tick callback uses norm); its range, end points, linear part and monotonicity are Signal.DbToHeightProperties |
| Signal.BinsPerBar | src/components/MainCanvas.tsx:225 | binsPerBar, the floor of the bin count over 48; Signal.BandSpanInBounds keeps every band inside the snapshot |
| Signal.EnergySum | src/components/MainCanvas.tsx:229-232 | the total energy over all bins; Signal.TotalEnergy computes it and Signal.EnergySumBounds bounds it |
| Signal.AvgEnergy | src/components/MainCanvas.tsx:233 | the normalised average energy; in [0, 1] by Signal.AvgEnergyRange when no bin exceeds 0 dB |
| Signal.BandAverage | src/components/MainCanvas.tsx:239-244 | avgDb of a band; Signal.ConstantBandAverage shows it is the band's level for a constant snapshot |
| Signal.Norm | src/components/MainCanvas.tsx:245 | the band level mapped from [-100, 0] dB to [0, 1], never negative |
| Signal.TargetHeight | src/components/MainCanvas.tsx:246 | a band's target height; in [0, 0.7·baseRadius] by Signal.TargetHeightBounded, and computed by Signal.BandTarget |
| Signal.Ease | src/components/MainCanvas.tsx:234-249 | one exponential smoothing step; Signal.EaseBetween, Signal.EaseNGap and Signal.EaseNMonotone state what it does to the gap |
| Signal.DynamicRadius | src/components/MainCanvas.tsx:235 | the pulsed radius; between the base radius and 1.4 times it by Signal.DynamicRadiusBounds |
| Signal.SmoothedHeights | src/components/MainCanvas.tsx:237-249 | the 48 heights after one step; Signal.Visualizer.DrawBars leaves the array at them and Signal.SmoothingStep and Signal.HeightsStayBounded state their bounds |
| Signal.BarStroke | src/components/MainCanvas.tsx:252-265 | the stroke of one bar: width 2.2, colour lerpColor(0x00cfff, 0xff0055, i/48), the centre and the two radii; Signal.StrokesWellFormed states its colour and direction |
| TimeFormat.JsRem | src/components/AudioPlayer.tsx:134 | JavaScript's `%` on finite numbers, whose remainder takes the dividend's sign (used by TimeFormat.FormatTimeNegative) |
| TimeFormat.Minutes | src/components/AudioPlayer.tsx:133 | Math.floor(t / 60); ⌊t⌋ div 60 for t ≥ 0 by TimeFormat.ClockParts |
| TimeFormat.Seconds | src/components/AudioPlayer.tsx:134 | Math.floor(t % 60); ⌊t⌋ mod 60 for t ≥ 0 by TimeFormat.ClockParts |
| TimeFormat.IntToString | src/components/AudioPlayer.tsx:136 | toString of an integer: a minus sign before the digits of a negative one |
| TimeFormat.Clock | src/components/AudioPlayer.tsx:136 | the template string of minutes and padded seconds; TimeFormat.ClockReadsBack shows it reads back as its parts |
| TimeFormat.FormatTime | src/components/AudioPlayer.tsx:130-137 | formatTime on finite numbers, NaN and ±Infinity; TimeFormat.FormatTimeNonNegative, TimeFormat.FormatTimeNaN and TimeFormat.FormatTimeNegative state its output |
| Player.Percentage | src/components/AudioPlayer.tsx:59 | a pointer offset as a percentage of the bar; above 100 past the bar by Player.ClickPastBar |
| Player.SeekTime | src/components/AudioPlayer.tsx:60 | the time a percentage of the track stands for; inverse of Player.ProgressOf by Player.ProgressOfSeek and Player.SeekOfProgress |
| Player.ProgressOf | src/components/AudioPlayer.tsx:68 | the progress a playback time stands for; inverse of Player.SeekTime |
| Player.DurationOrZero | src/components/AudioPlayer.tsx:41 | `audio.duration or 0`: NaN becomes 0 and every other number, ±Infinity included, is kept, so the result is never NaN |
| Player.SeekTarget | src/components/AudioPlayer.tsx:60 | the seek time as a JavaScript number: SeekTime for a finite duration, never finite for an infinite or NaN one (+Infinity for a positive share of +Infinity, NaN at 0 %) |
| Player.StreamPlayer | src/components/AudioPlayer.tsx:40-64 | a player whose media reports +Infinity keeps that duration, shows it as "Infinity:NaN" (line 227), and a click on the bar changes neither the progress nor the requests |
| CoverFit.Fit | src/utils.ts:21-25 | the cover fit's scale, size and offsets; CoverFit.FitCovers, CoverFit.FitKeepsAspect, CoverFit.FitCentres and CoverFit.FitScaleMinimal state what it achieves |
| CoverFit.ScaleCovers | src/utils.ts:21-23 | the scaled image is at least 1920 wide and 1080 high |
| CoverFit.FitCovers | src/utils.ts:21-23 | the image covers the frame, and one scaled side matches its target exactly |
| CoverFit.FitKeepsAspect | src/utils.ts:21-23 | the scale is positive and the aspect ratio is kept |
| CoverFit.FitCentres | src/utils.ts:24-25 | the offsets are not positive and centre the image on (960, 540) |
| CoverFit.FitContainsFrame | src/utils.ts:21-25 | every point of the 1920x1080 frame is inside the drawn image |
| CoverFit.FitScaleMinimal | src/utils.ts:21 | no smaller scale covers the frame, so the fit crops as little as possible |

## Left out

- The particle emitter, its per-tick update and resizeEmitter (MainCanvas.tsx:101-106, 273-292): they drive the particle library, which is not part of this model.
- Pixi drawing (clear, setStrokeStyle, moveTo/lineTo, the mask's fill, texture loading): strokes and the mask circle are recorded as values.
- cos and sin of the bar angle: bars are recorded in polar form (index, inner and outer radius).
- `Math.pow(norm, 1.5)`: it is the `curve` parameter, and only the properties in `Signal.ValidCurve` are assumed.
- The Web Audio graph (AudioContext, analyser connection, getFloatFrequencyData, resuming a suspended context): the frequency snapshot is an input of `Signal.Visualizer.Tick`.
- Playback itself, the browser's seek clamping, and the duration the element reports: seeks, plays and pauses are recorded as requests, and the media duration is a constructor input. Assigning a non-finite currentTime throws a TypeError (the attribute is a WebIDL `double`); the model stops the handler there, with no request and no progress update.
- IEEE 754 floating point: numbers are reals; rounding errors, overflow and NaN propagation in arithmetic are not modelled, except where formatTime meets NaN and ±Infinity.
- React's rendering: state updates take effect immediately; stale closures and batching are not modelled. The stale read in togglePlay's two `setIsPlaying(!isPlaying)` calls is the one that matters, and it is captured since both write the same value.
- Window and DOM listeners (resize, mousemove, mouseup installation and removal, unmount cleanup): each handler is a method that is called directly.
- The label's measured text width: it is an input of `Canvas.Scene.SetLabelText`.
- The play-callback hooks of the player's imperative handle (hasPlayCallback, addPlayCallback, removePlayCallback): registration bookkeeping with no logic.
- `analyzeAudio` and the rest of utils.ts, the export pipeline, the side panel and the form: outside the core.
- `getComputedStyle` and `parseFloat` of the CSS custom property: the root font size and the `--spacing` value are the parameters in `Canvas.CssMetrics`.
- Player.AudioPlayer.TimeUpdate: requires the media duration to be +Infinity or finite and non-zero, because over NaN or 0 the source's unguarded division gives a NaN or infinite progress, which the real-valued progress state cannot hold.
- Player.AudioPlayer.ProgressClick: requires a positive bar width, because the source divides by the bar's width without a guard; the same holds for MouseDown and MouseMove.
- Signal.Visualizer.Tick: requires at least 48 bins, because with fewer the source's binsPerBar is 0 and the band average divides by zero.
- TimeFormat.FormatTime: exponent notation of very large numbers in toString is not modelled, because the digits are produced for every integer.
- Color.LerpColorChannels: stated for t in [0, 1], the only range the callback passes (i/48).

## Findings

| source | as written | input that shows it | evidently intended | confidence | as-written member | corrected member |
|---|---|---|---|---|---|---|
| src/components/AudioPlayer.tsx:102-127 | the volume state starts at 0.5 and the slider shows 0.5, but the `<audio>` element is never given that volume and keeps its default 1.0; unmuting restores the state volume | a fresh player, then toggleMute twice: the element goes 1.0 → 0 → 0.5 while the slider shows 0.5 throughout | the element starts at the state volume, so it plays at what the slider shows and mute/unmute restores the starting level | not executed; likely unintended | Player.MuteTwiceAsWritten | Player.MuteTwiceCorrected |
| src/components/MainCanvas.tsx:97-109 | the mount effect calls resizeCanvasEl (line 97) before it creates the analyser (line 109), so that call returns at line 202 without registering the visualizer; the only other caller is the effect on canvasWidth (lines 304-309) | mount with a window whose width never changes afterwards (production build; the development double mount may mask it): the ticker holds no visualizer callback and no bars are drawn | the analyser exists before the first resize, so that resize registers the one callback for the current width | not executed | Canvas.MountAsWritten | Canvas.MountCorrected |
