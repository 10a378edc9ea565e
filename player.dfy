/**
 * The audio player component (src/components/AudioPlayer.tsx): the React
 * state of the player together with the parts of the <audio> element it
 * writes. Each event handler is a method; what it asks of the element
 * (play, pause, seek) is appended to `requests`, since playback itself is
 * the browser's.
 */
module Player {
  import opened TimeFormat

  /** What a handler asks of the <audio> element. */
  datatype Request = Play | Pause | Seek(time: real)

  /** `Math.max(0, Math.min(100, percentage))`: the drag position clamped to the bar. */
  function ClampPercent(p: real): (r: real)
    ensures 0.0 <= r <= 100.0
    ensures 0.0 <= p <= 100.0 ==> r == p
    ensures p < 0.0 ==> r == 0.0
    ensures p > 100.0 ==> r == 100.0
  {
    if p < 0.0 then 0.0 else if p > 100.0 then 100.0 else p
  }

  /** `(x / rect.width) * 100`: a pointer offset as a percentage of the bar. */
  function Percentage(x: real, width: real): real
    requires width != 0.0
  {
    x / width * 100.0
  }

  /** `(percentage / 100) * duration`: the time a percentage of the track stands for. */
  function SeekTime(percentage: real, duration: real): real
  {
    percentage / 100.0 * duration
  }

  /**
   * `(percentage / 100) * duration` with the duration a JavaScript number:
   * a finite duration gives SeekTime, an infinite one gives ±Infinity, or
   * NaN at 0 %, and NaN stays NaN.
   */
  function SeekTarget(percentage: real, duration: Number): (r: Number)
    ensures duration.Finite? ==> r == Finite(SeekTime(percentage, duration.value))
    ensures !duration.Finite? ==> !r.Finite?
    ensures duration.PosInfinity? && percentage > 0.0 ==> r == PosInfinity
    ensures duration.PosInfinity? && percentage == 0.0 ==> r == NaN
  {
    match duration
    case Finite(d) => Finite(SeekTime(percentage, d))
    case NaN => NaN
    case PosInfinity =>
      if percentage > 0.0 then PosInfinity else if percentage < 0.0 then NegInfinity else NaN
    case NegInfinity =>
      if percentage > 0.0 then NegInfinity else if percentage < 0.0 then PosInfinity else NaN
  }

  /** `(currentTime / duration) * 100`: the progress a playback time stands for. */
  function ProgressOf(time: real, duration: real): real
    requires duration != 0.0
  {
    time / duration * 100.0
  }

  /** `audio.duration || 0`: NaN becomes 0, every other number (±Infinity included) is kept. */
  function DurationOrZero(d: Number): (r: Number)
    ensures !r.NaN?
    ensures d.NaN? ==> r == Finite(0.0)
    ensures !d.NaN? ==> r == d
  {
    if d.NaN? then Finite(0.0) else d
  }

  class AudioPlayer {
    // React state
    var isPlaying: bool
    var progress: real
    var duration: Number
    var currentTime: real
    var volume: real
    var isMuted: bool
    var isDragging: bool
    // The <audio> element behind audioRef: whether it is mounted, its
    // volume, the duration it reports, and what was asked of it.
    const hasElement: bool
    var elementVolume: real
    const mediaDuration: Number
    var requests: seq<Request>

    /**
     * The state every handler keeps: the volume is a slider value, the
     * duration state is never NaN, and an absent element is never asked
     * anything.
     */
    ghost predicate Valid()
      reads this
    {
      0.0 <= volume <= 1.0 && !duration.NaN? && (!hasElement ==> requests == [])
    }

    /** The element plays at the volume the slider shows. */
    ghost predicate VolumeSynced()
      reads this
    {
      Valid() && (hasElement ==> elementVolume == SliderValue())
    }

    /** `value={isMuted ? 0 : volume}`: the position of the volume slider. */
    function SliderValue(): (v: real)
      reads this
      requires Valid()
      ensures 0.0 <= v <= 1.0
      ensures isMuted ==> v == 0.0
      ensures !isMuted ==> v == volume
    {
      if isMuted then 0.0 else volume
    }

    /**
     * The first render as written: the state volume is 0.5 while the
     * element keeps the HTML default volume 1.0.
     */
    constructor AsWritten(mounted: bool, media: Number)
      ensures Valid()
      ensures hasElement == mounted && mediaDuration == media
      ensures !isPlaying && progress == 0.0 && duration == Finite(0.0) && currentTime == 0.0
      ensures volume == 0.5 && !isMuted && !isDragging
      ensures elementVolume == 1.0 && requests == []
    {
      hasElement := mounted;
      mediaDuration := media;
      isPlaying := false;
      progress := 0.0;
      duration := Finite(0.0);
      currentTime := 0.0;
      volume := 0.5;
      isMuted := false;
      isDragging := false;
      elementVolume := 1.0;
      requests := [];
    }

    /**
     * The first render corrected: the element starts at the state volume
     * 0.5, in step with the slider.
     */
    constructor (mounted: bool, media: Number)
      ensures Valid() && VolumeSynced()
      ensures hasElement == mounted && mediaDuration == media
      ensures !isPlaying && progress == 0.0 && duration == Finite(0.0) && currentTime == 0.0
      ensures volume == 0.5 && !isMuted && !isDragging
      ensures elementVolume == 0.5 && requests == []
    {
      hasElement := mounted;
      mediaDuration := media;
      isPlaying := false;
      progress := 0.0;
      duration := Finite(0.0);
      currentTime := 0.0;
      volume := 0.5;
      isMuted := false;
      isDragging := false;
      elementVolume := 0.5;
      requests := [];
    }

    /** The loadedmetadata listener: `setDuration(audio.duration || 0)`. */
    method LoadedMetadata()
      requires Valid() && hasElement
      modifies this
      ensures Valid() && (old(VolumeSynced()) ==> VolumeSynced())
      ensures duration == DurationOrZero(mediaDuration)
      ensures isPlaying == old(isPlaying) && progress == old(progress) && currentTime == old(currentTime)
      ensures volume == old(volume) && isMuted == old(isMuted) && isDragging == old(isDragging)
      ensures elementVolume == old(elementVolume) && requests == old(requests)
    {
      duration := DurationOrZero(mediaDuration);
    }

    /**
     * togglePlay: the playing flag flips whether or not the element is
     * mounted; a mounted element is paused if it was playing and played
     * otherwise.
     */
    method TogglePlay()
      requires Valid()
      modifies this
      ensures Valid() && (old(VolumeSynced()) ==> VolumeSynced())
      ensures isPlaying == !old(isPlaying)
      ensures requests == old(requests) + (if hasElement then [if old(isPlaying) then Pause else Play] else [])
      ensures progress == old(progress) && duration == old(duration) && currentTime == old(currentTime)
      ensures volume == old(volume) && isMuted == old(isMuted) && isDragging == old(isDragging)
      ensures elementVolume == old(elementVolume)
    {
      var wasPlaying := isPlaying;
      if hasElement {
        isPlaying := !wasPlaying;
        requests := requests + [if wasPlaying then Pause else Play];
      }
      isPlaying := !wasPlaying;
    }

    /** onEnded: the track finished, the button shows "play" again. */
    method OnEnded()
      requires Valid()
      modifies this
      ensures Valid() && (old(VolumeSynced()) ==> VolumeSynced())
      ensures !isPlaying
      ensures progress == old(progress) && duration == old(duration) && currentTime == old(currentTime)
      ensures volume == old(volume) && isMuted == old(isMuted) && isDragging == old(isDragging)
      ensures elementVolume == old(elementVolume) && requests == old(requests)
    {
      isPlaying := false;
    }

    /**
     * Whether a seek to `percentage` goes through: the element is mounted
     * and the time is finite. The element's currentTime is a WebIDL
     * `double`, so assigning it a non-finite time throws a TypeError and
     * the handler stops before setProgress.
     */
    predicate SeekSucceeds(percentage: real)
      reads this
    {
      hasElement && SeekTarget(percentage, duration).Finite?
    }

    /**
     * handleProgressClick with the pointer x pixels right of the bar's left
     * edge: seek to that share of the duration. The percentage is not
     * clamped.
     */
    method ProgressClick(x: real, barWidth: real)
      requires Valid() && barWidth > 0.0
      modifies this
      ensures Valid() && (old(VolumeSynced()) ==> VolumeSynced())
      ensures SeekSucceeds(Percentage(x, barWidth)) ==>
        progress == Percentage(x, barWidth) &&
        requests == old(requests) + [Seek(SeekTarget(Percentage(x, barWidth), duration).value)]
      ensures !SeekSucceeds(Percentage(x, barWidth)) ==> progress == old(progress) && requests == old(requests)
      ensures isPlaying == old(isPlaying) && duration == old(duration) && currentTime == old(currentTime)
      ensures volume == old(volume) && isMuted == old(isMuted) && isDragging == old(isDragging)
      ensures elementVolume == old(elementVolume)
    {
      if hasElement {
        var percentage := (x / barWidth) * 100.0;
        var newTime := SeekTarget(percentage, duration);
        assert percentage == Percentage(x, barWidth);
        if newTime.Finite? {
          requests := requests + [Seek(newTime.value)];
          progress := percentage;
        }
      }
    }

    /**
     * handleTimeUpdate at playback time `now`: the progress follows the
     * element's time over the element's duration, which must be +Infinity
     * or non-zero and finite (the source divides by it unguarded); a
     * finite time over +Infinity is 0.
     */
    method TimeUpdate(now: real)
      requires Valid()
      requires mediaDuration.PosInfinity? || (mediaDuration.Finite? && mediaDuration.value != 0.0)
      modifies this
      ensures Valid() && (old(VolumeSynced()) ==> VolumeSynced())
      ensures hasElement && mediaDuration.Finite? ==> progress == ProgressOf(now, mediaDuration.value)
      ensures hasElement && mediaDuration.PosInfinity? ==> progress == 0.0
      ensures hasElement ==> currentTime == now
      ensures !hasElement ==> progress == old(progress) && currentTime == old(currentTime)
      ensures isPlaying == old(isPlaying) && duration == old(duration)
      ensures volume == old(volume) && isMuted == old(isMuted) && isDragging == old(isDragging)
      ensures elementVolume == old(elementVolume) && requests == old(requests)
    {
      if hasElement {
        progress := if mediaDuration.PosInfinity? then 0.0 else (now / mediaDuration.value) * 100.0;
        currentTime := now;
      }
    }

    /** updateProgress(percentage): seek to that share of the duration. */
    method UpdateProgress(percentage: real)
      requires Valid()
      modifies this
      ensures Valid() && (old(VolumeSynced()) ==> VolumeSynced())
      ensures SeekSucceeds(percentage) ==>
        progress == percentage && requests == old(requests) + [Seek(SeekTarget(percentage, duration).value)]
      ensures !SeekSucceeds(percentage) ==> progress == old(progress) && requests == old(requests)
      ensures isPlaying == old(isPlaying) && duration == old(duration) && currentTime == old(currentTime)
      ensures volume == old(volume) && isMuted == old(isMuted) && isDragging == old(isDragging)
      ensures elementVolume == old(elementVolume)
    {
      if hasElement {
        var newTime := SeekTarget(percentage, duration);
        if newTime.Finite? {
          requests := requests + [Seek(newTime.value)];
          progress := percentage;
        }
      }
    }

    /** handleMouseDown: start dragging and seek to the pressed point. */
    method MouseDown(x: real, barWidth: real)
      requires Valid() && barWidth > 0.0
      modifies this
      ensures Valid() && (old(VolumeSynced()) ==> VolumeSynced())
      ensures isDragging
      ensures SeekSucceeds(Percentage(x, barWidth)) ==>
        progress == Percentage(x, barWidth) &&
        requests == old(requests) + [Seek(SeekTarget(Percentage(x, barWidth), duration).value)]
      ensures !SeekSucceeds(Percentage(x, barWidth)) ==> progress == old(progress) && requests == old(requests)
      ensures isPlaying == old(isPlaying) && duration == old(duration) && currentTime == old(currentTime)
      ensures volume == old(volume) && isMuted == old(isMuted)
      ensures elementVolume == old(elementVolume)
    {
      isDragging := true;
      ProgressClick(x, barWidth);
    }

    /**
     * handleMouseMove while the window listener is installed: when
     * dragging, seek to the pointer's share of the bar clamped to [0, 100].
     */
    method MouseMove(x: real, barWidth: real)
      requires Valid() && barWidth > 0.0
      modifies this
      ensures Valid() && (old(VolumeSynced()) ==> VolumeSynced())
      ensures isDragging && SeekSucceeds(ClampPercent(Percentage(x, barWidth))) ==>
        progress == ClampPercent(Percentage(x, barWidth)) &&
        requests == old(requests) + [Seek(SeekTarget(ClampPercent(Percentage(x, barWidth)), duration).value)]
      ensures !(isDragging && SeekSucceeds(ClampPercent(Percentage(x, barWidth)))) ==>
        progress == old(progress) && requests == old(requests)
      ensures isPlaying == old(isPlaying) && duration == old(duration) && currentTime == old(currentTime)
      ensures volume == old(volume) && isMuted == old(isMuted) && isDragging == old(isDragging)
      ensures elementVolume == old(elementVolume)
    {
      if isDragging {
        var percentage := (x / barWidth) * 100.0;
        var clamped := if 0.0 > (if 100.0 < percentage then 100.0 else percentage) then 0.0
                       else if 100.0 < percentage then 100.0 else percentage;
        assert clamped == ClampPercent(Percentage(x, barWidth));
        UpdateProgress(clamped);
      }
    }

    /** handleMouseUp: dragging stops. */
    method MouseUp()
      requires Valid()
      modifies this
      ensures Valid() && (old(VolumeSynced()) ==> VolumeSynced())
      ensures !isDragging
      ensures isPlaying == old(isPlaying) && progress == old(progress) && duration == old(duration)
      ensures currentTime == old(currentTime) && volume == old(volume) && isMuted == old(isMuted)
      ensures elementVolume == old(elementVolume) && requests == old(requests)
    {
      isDragging := false;
    }

    /**
     * handleVolumeChange with the slider's value v in [0, 1]: the state
     * and the element take v, and the player is muted exactly when v is 0.
     */
    method HandleVolumeChange(v: real)
      requires Valid() && 0.0 <= v <= 1.0
      modifies this
      ensures Valid() && VolumeSynced()
      ensures volume == v && (isMuted <==> v == 0.0)
      ensures hasElement ==> elementVolume == v
      ensures !hasElement ==> elementVolume == old(elementVolume)
      ensures isPlaying == old(isPlaying) && progress == old(progress) && duration == old(duration)
      ensures currentTime == old(currentTime) && isDragging == old(isDragging) && requests == old(requests)
    {
      volume := v;
      if hasElement {
        elementVolume := v;
      }
      if v == 0.0 {
        isMuted := true;
      } else {
        isMuted := false;
      }
    }

    /**
     * toggleMute: muting sets the element to 0, unmuting restores the
     * state volume; without an element nothing changes.
     */
    method ToggleMute()
      requires Valid()
      modifies this
      ensures Valid() && (old(VolumeSynced()) ==> VolumeSynced())
      ensures hasElement ==> isMuted == !old(isMuted) &&
                             elementVolume == (if old(isMuted) then volume else 0.0)
      ensures !hasElement ==> isMuted == old(isMuted) && elementVolume == old(elementVolume)
      ensures volume == old(volume)
      ensures isPlaying == old(isPlaying) && progress == old(progress) && duration == old(duration)
      ensures currentTime == old(currentTime) && isDragging == old(isDragging) && requests == old(requests)
    {
      if hasElement {
        if isMuted {
          elementVolume := volume;
          isMuted := false;
        } else {
          elementVolume := 0.0;
          isMuted := true;
        }
      }
    }
  }

  // ---------------------------------------------------------------------
  // Properties

  /** A drag seek always lands inside the track: in [0, duration] for a non-negative duration. */
  lemma DragSeekInTrack(x: real, barWidth: real, duration: real)
    requires barWidth > 0.0 && duration >= 0.0
    ensures 0.0 <= SeekTime(ClampPercent(Percentage(x, barWidth)), duration) <= duration
  {
    var p := ClampPercent(Percentage(x, barWidth));
    assert 0.0 <= p / 100.0 <= 1.0;
    assert p / 100.0 * duration <= 1.0 * duration;
  }

  /** Clamping is idempotent and follows the pointer monotonically. */
  lemma ClampPercentMonotone(p: real, q: real)
    requires p <= q
    ensures ClampPercent(p) <= ClampPercent(q)
    ensures ClampPercent(ClampPercent(p)) == ClampPercent(p)
  {
  }

  /** A click has no clamp: a pointer past the bar's right edge gives a progress above 100. */
  lemma ClickPastBar(x: real, barWidth: real)
    requires barWidth > 0.0 && x > barWidth
    ensures Percentage(x, barWidth) > 100.0
  {
    assert x / barWidth > 1.0;
  }

  /**
   * Seeking to a percentage and reading the progress back at that time
   * gives the percentage again: updateProgress and handleTimeUpdate agree.
   */
  lemma ProgressOfSeek(percentage: real, duration: real)
    requires duration != 0.0
    ensures ProgressOf(SeekTime(percentage, duration), duration) == percentage
  {
    var f := percentage / 100.0;
    assert f * duration / duration == f;
  }

  /** Seeking to the progress of a time gives that time back. */
  lemma SeekOfProgress(time: real, duration: real)
    requires duration != 0.0
    ensures SeekTime(ProgressOf(time, duration), duration) == time
  {
    assert time / duration * 100.0 / 100.0 == time / duration;
  }

  /**
   * Two play toggles on a mounted element bring the flag back and ask for a
   * play and a pause in alternation.
   */
  method TogglePlayTwice(p: AudioPlayer)
    requires p.Valid() && p.hasElement
    modifies p
    ensures p.Valid() && p.isPlaying == old(p.isPlaying)
    ensures p.requests == old(p.requests) + (if old(p.isPlaying) then [Pause, Play] else [Play, Pause])
  {
    p.TogglePlay();
    p.TogglePlay();
  }

  /** On a player whose element is in step with the slider, two mute toggles restore the element's volume. */
  method ToggleMuteTwice(p: AudioPlayer)
    requires p.Valid() && p.VolumeSynced()
    modifies p
    ensures p.Valid() && p.VolumeSynced()
    ensures p.elementVolume == old(p.elementVolume) && p.isMuted == old(p.isMuted)
  {
    p.ToggleMute();
    p.ToggleMute();
  }

  /**
   * As written, a freshly mounted player plays at 1.0 while the slider
   * shows 0.5, and after muting and unmuting it plays at 0.5: the two
   * toggles do not restore the volume it started with.
   */
  method MuteTwiceAsWritten() returns (sliderBefore: real, before: real, after: real)
    ensures sliderBefore == 0.5 && before == 1.0 && after == 0.5
  {
    var p := new AudioPlayer.AsWritten(true, Finite(180.0));
    sliderBefore := p.SliderValue();
    before := p.elementVolume;
    p.ToggleMute();
    p.ToggleMute();
    after := p.elementVolume;
  }

  /** With the initial volume applied, the element starts at the slider's value and two toggles restore it. */
  method MuteTwiceCorrected() returns (sliderBefore: real, before: real, after: real)
    ensures sliderBefore == before == after == 0.5
  {
    var p := new AudioPlayer(true, Finite(180.0));
    sliderBefore := p.SliderValue();
    before := p.elementVolume;
    ToggleMuteTwice(p);
    after := p.elementVolume;
  }

  /**
   * A stream, or a file without duration metadata, reports +Infinity: the
   * player keeps it, shows it as "Infinity:NaN", and a click on the bar
   * changes nothing, since the seek to an infinite time throws.
   */
  method StreamPlayer() returns (shown: string, progress: real, requests: seq<Request>)
    ensures shown == "Infinity:NaN" && progress == 0.0 && requests == []
  {
    var p := new AudioPlayer(true, PosInfinity);
    p.LoadedMetadata();
    shown := FormatTime(p.duration);
    p.ProgressClick(50.0, 100.0);
    progress := p.progress;
    requests := p.requests;
  }

  /** While in step, a mounted player's element plays at exactly the volume the slider shows. */
  lemma SliderShowsElementVolume(p: AudioPlayer)
    requires p.Valid() && p.VolumeSynced() && p.hasElement
    ensures p.elementVolume == p.SliderValue()
    ensures p.isMuted ==> p.elementVolume == 0.0
  {
  }
}
