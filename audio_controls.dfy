/** The transport controls (src/components/visualizer/AudioControls.tsx): the
    time formatter, the slider mappings, and the handlers that move state
    between the `<audio>` element and the store. Promises become explicit
    outcomes: whether `resumeAudioContext()` and `play()` resolved, and whether
    the analysis graph could be built. */
module AudioControls {
  import opened Common
  import opened Spectrum
  import opened Audio

  // ---------------------------------------------------------------------------
  // formatTime

  predicate IsDigit(c: char)
  {
    '0' <= c <= '9'
  }

  predicate AllDigits(s: string)
  {
    forall k :: 0 <= k < |s| ==> IsDigit(s[k])
  }

  function DigitChar(d: nat): (c: char)
    requires d < 10
    ensures IsDigit(c) && c as int - '0' as int == d
  {
    (d + '0' as int) as char
  }

  /** The decimal text JavaScript gives a non-negative integer. */
  function NatToString(n: nat): (s: string)
    ensures |s| >= 1 && AllDigits(s)
    ensures n < 10 <==> |s| == 1
    decreases n
  {
    if n < 10 then [DigitChar(n)] else NatToString(n / 10) + [DigitChar(n % 10)]
  }

  /** The decimal text JavaScript gives any integer. */
  function IntToString(i: int): string
  {
    if i < 0 then "-" + NatToString(-i) else NatToString(i)
  }

  /** `s.padStart(2, '0')`. */
  function PadStart2(s: string): string
  {
    if |s| >= 2 then s else seq(2 - |s|, _ => '0') + s
  }

  /** `Math.trunc`. */
  function Trunc(x: real): int
  {
    if x >= 0.0 then x.Floor else -((-x).Floor)
  }

  /** JavaScript's `x % m` for a positive modulus: the remainder keeps the sign of `x`. */
  function Remainder(x: real, m: real): real
    requires m > 0.0
  {
    x - m * Trunc(x / m) as real
  }

  /** `formatTime`: whole minutes, a colon, and the whole seconds of the
      minute padded to two characters. */
  function FormatTime(time: real): string
  {
    var minutes := (time / 60.0).Floor;
    var seconds := Remainder(time, 60.0).Floor;
    IntToString(minutes) + ":" + PadStart2(IntToString(seconds))
  }

  /** For a non-negative time, the minutes are the whole seconds divided by 60
      and the seconds field is two digits holding a value below 60. */
  lemma FormatTimeShape(time: real)
    requires time >= 0.0
    ensures FormatTime(time) == NatToString(time.Floor / 60) + ":" + PadStart2(NatToString(time.Floor % 60))
    ensures time.Floor % 60 < 60
    ensures |PadStart2(NatToString(time.Floor % 60))| == 2
  {
    var n := time.Floor;
    var q := n / 60;
    assert n as real <= time < n as real + 1.0;
    assert 60 * q <= n < 60 * q + 60;
    assert q as real <= time / 60.0 < q as real + 1.0;
    assert (time / 60.0).Floor == q;
    assert Trunc(time / 60.0) == q;
    var rest := Remainder(time, 60.0);
    assert rest == time - 60.0 * q as real;
    assert (n - 60 * q) as real <= rest < (n - 60 * q) as real + 1.0;
    assert rest.Floor == n % 60;
  }

  /** The value of a digit string, read from the left. */
  function ParseNat(s: string): nat
    requires AllDigits(s)
  {
    if s == [] then 0 else ParseNat(s[..|s| - 1]) * 10 + (s[|s| - 1] as int - '0' as int)
  }

  lemma {:induction false} ParseNatToString(n: nat)
    ensures ParseNat(NatToString(n)) == n
    decreases n
  {
    if n >= 10 {
      var s := NatToString(n);
      assert s[..|s| - 1] == NatToString(n / 10);
      ParseNatToString(n / 10);
    }
  }

  /** The index of the first `':'`, if any. */
  function ColonIndex(s: string): (r: Option<nat>)
    ensures r.Some? ==> r.value < |s| && s[r.value] == ':' && ':' !in s[..r.value]
    ensures r.None? ==> ':' !in s
  {
    if s == [] then None
    else if s[0] == ':' then Some(0)
    else match ColonIndex(s[1..])
      case None => None
      case Some(k) => Some(k + 1)
  }

  /** An independent reader of `m:ss` text: total whole seconds, or `None` when
      the text is not minutes, a colon and two digits below 60. */
  function ParseTime(text: string): Option<nat>
  {
    match ColonIndex(text)
    case None => None
    case Some(k) => ParseFields(text[..k], text[k + 1..])
  }

  /** The two fields on either side of the colon. */
  function ParseFields(minutes: string, seconds: string): Option<nat>
  {
    if |minutes| >= 1 && AllDigits(minutes) && |seconds| == 2 && AllDigits(seconds)
       && ParseNat(seconds) < 60
    then Some(ParseNat(minutes) * 60 + ParseNat(seconds))
    else None
  }

  lemma ColonIndexAfter(a: string, b: string)
    requires ':' !in a
    ensures ColonIndex(a + ":" + b) == Some(|a|)
  {
    var s := a + ":" + b;
    assert s[|a|] == ':';
  }

  /** The padded seconds field reads back as the seconds. */
  lemma PaddedSecondsParse(k: nat)
    requires k < 60
    ensures |PadStart2(NatToString(k))| == 2 && AllDigits(PadStart2(NatToString(k)))
    ensures ParseNat(PadStart2(NatToString(k))) == k
  {
    var s := NatToString(k);
    var ss := PadStart2(s);
    ParseNatToString(k);
    if |s| == 1 {
      assert ss == ['0', s[0]];
      assert ss[..1] == ['0'];
      assert s[..0] == [];
    }
  }

  /** Minutes, a colon and a two-digit seconds field read back as total seconds. */
  lemma ParseTimeOfText(m: string, ss: string, minutes: nat, seconds: nat)
    requires |m| >= 1 && AllDigits(m) && ParseNat(m) == minutes
    requires |ss| == 2 && AllDigits(ss) && ParseNat(ss) == seconds < 60
    ensures ParseTime(m + ":" + ss) == Some(minutes * 60 + seconds)
  {
    assert ':' !in m by {
      forall i | 0 <= i < |m| ensures m[i] != ':' {
        assert IsDigit(m[i]);
      }
    }
    ColonIndexAfter(m, ss);
    var text := m + ":" + ss;
    assert text[..|m|] == m;
    assert text[|m| + 1..] == ss;
    assert ParseTime(text) == ParseFields(m, ss);
  }

  /** Text of the shape `formatTime` produces reads back as total seconds. */
  lemma ParseTimeOfFields(minutes: nat, seconds: nat)
    requires seconds < 60
    ensures ParseTime(NatToString(minutes) + ":" + PadStart2(NatToString(seconds)))
            == Some(minutes * 60 + seconds)
  {
    ParseNatToString(minutes);
    PaddedSecondsParse(seconds);
    ParseTimeOfText(NatToString(minutes), PadStart2(NatToString(seconds)), minutes, seconds);
  }

  /** Reading back the text of a non-negative time gives its whole seconds. */
  lemma FormatTimeRoundTrip(time: real)
    requires time >= 0.0
    ensures ParseTime(FormatTime(time)) == Some(time.Floor)
  {
    FormatTimeShape(time);
    var n := time.Floor;
    ParseTimeOfFields(n / 60, n % 60);
    assert n / 60 * 60 + n % 60 == n;
  }

  /** A minute and a half reads "1:30". */
  lemma FormatTimeMinuteAndHalf()
    ensures FormatTime(90.0) == "1:30"
  {
    FormatTimeShape(90.0);
    assert (90.0).Floor == 90;
    assert 90 / 60 == 1 && 90 % 60 == 30;
    assert NatToString(1) == "1";
    assert NatToString(30) == NatToString(3) + [DigitChar(0)] == "30";
    assert PadStart2("30") == "30";
  }

  /** Seconds below ten are padded with a zero: 5 reads "0:05". */
  lemma FormatTimePadsSeconds()
    ensures FormatTime(5.0) == "0:05"
  {
    FormatTimeShape(5.0);
    assert (5.0).Floor == 5;
    assert 5 / 60 == 0 && 5 % 60 == 5;
    assert NatToString(0) == "0";
    assert NatToString(5) == "5";
    assert PadStart2("5") == "05";
  }

  // ---------------------------------------------------------------------------
  // Slider mappings

  /** `handleSeek`'s new time for a slider value in percent. */
  function SeekTime(sliderValue: real, duration: real): (time: real)
    ensures 0.0 <= sliderValue <= 100.0 && duration >= 0.0 ==> 0.0 <= time <= duration
  {
    (sliderValue / 100.0) * duration
  }

  /** The progress slider's value: percent of the duration, 0 without one. */
  function ProgressValue(currentTime: real, duration: real): (p: real)
    ensures duration == 0.0 ==> p == 0.0
    ensures duration > 0.0 && 0.0 <= currentTime <= duration ==> 0.0 <= p <= 100.0
  {
    if duration != 0.0 then (currentTime / duration) * 100.0 else 0.0
  }

  /** Seeking to a slider position puts the progress slider at that position. */
  lemma SeekThenProgress(sliderValue: real, duration: real)
    requires duration != 0.0
    ensures ProgressValue(SeekTime(sliderValue, duration), duration) == sliderValue
  {
    var t := SeekTime(sliderValue, duration);
    assert t / duration == sliderValue / 100.0;
  }

  /** Seeking to where the progress slider stands does not move the playhead. */
  lemma ProgressThenSeek(currentTime: real, duration: real)
    requires duration != 0.0
    ensures SeekTime(ProgressValue(currentTime, duration), duration) == currentTime
  {
    var p := ProgressValue(currentTime, duration);
    assert p / 100.0 == currentTime / duration;
  }

  /** The volume slider's change handler: percent to a level. */
  function VolumeFromSlider(sliderValue: real): (level: real)
    ensures 0.0 <= sliderValue <= 100.0 ==> 0.0 <= level <= 1.0
  {
    sliderValue / 100.0
  }

  /** The volume slider's displayed value. */
  function VolumeSliderValue(level: real): (sliderValue: real)
    ensures 0.0 <= level <= 1.0 ==> 0.0 <= sliderValue <= 100.0
  {
    level * 100.0
  }

  lemma VolumeSliderRoundTrip(sliderValue: real, level: real)
    ensures VolumeSliderValue(VolumeFromSlider(sliderValue)) == sliderValue
    ensures VolumeFromSlider(VolumeSliderValue(level)) == level
  {
  }

  // ---------------------------------------------------------------------------
  // Play / pause

  /** `isPlaying` after `togglePlay`. */
  function ToggledPlaying(isPlaying: bool, hasElement: bool, resumed: bool, playStarted: bool): (r: bool)
    ensures !isPlaying ==> (r <==> hasElement && resumed && playStarted)
    ensures isPlaying ==> (r <==> !hasElement || !resumed)
  {
    if !hasElement || !resumed then isPlaying
    else if !isPlaying then playStarted
    else false
  }

  /** `togglePlay`: without an element nothing happens; the context is resumed
      first and a rejection there is caught with no state change; a paused
      player calls `play()` and sets `isPlaying` only once it resolves; a
      playing one pauses the element and clears `isPlaying`. */
  method TogglePlay(store: AudioStore, audio: MediaElement?, resumed: bool, playStarted: bool)
    modifies store`isPlaying, audio
    ensures store.isPlaying == ToggledPlaying(old(store.isPlaying), audio != null, resumed, playStarted)
    ensures audio != null ==>
      && audio.currentTime == old(audio.currentTime) && audio.duration == old(audio.duration)
      && audio.volume == old(audio.volume)
      && audio.paused == (if !resumed then old(audio.paused)
                          else if old(store.isPlaying) then true
                          else old(audio.paused) && !playStarted)
  {
    if audio == null {
      return;
    }
    if !resumed {
      return;
    }
    if !store.isPlaying {
      if playStarted {
        audio.paused := false;
        store.SetPlaying(true);
      }
    } else {
      audio.paused := true;
      store.SetPlaying(false);
    }
  }

  /** The effect run when `isPlaying` changes: a playing store with a paused
      element calls `play()` and clears the flag if it rejects; a paused store
      with a playing element pauses it. Afterwards the flag and the element
      agree. */
  method SyncPlayback(store: AudioStore, audio: MediaElement?, playStarted: bool)
    modifies store`isPlaying, audio
    ensures audio == null ==> store.isPlaying == old(store.isPlaying)
    ensures audio != null ==> store.isPlaying == !audio.paused
    ensures audio != null ==>
      store.isPlaying == (old(store.isPlaying) && (!old(audio.paused) || playStarted))
    ensures audio != null ==>
      audio.currentTime == old(audio.currentTime) && audio.duration == old(audio.duration)
      && audio.volume == old(audio.volume)
  {
    if audio == null {
      return;
    }
    if store.isPlaying && audio.paused {
      if playStarted {
        audio.paused := false;
      } else {
        store.SetPlaying(false);
      }
    } else if !store.isPlaying && !audio.paused {
      audio.paused := true;
    }
  }

  /** The `ended` listener. */
  method OnEnded(store: AudioStore)
    modifies store`isPlaying
    ensures !store.isPlaying
  {
    store.SetPlaying(false);
  }

  /** The `timeupdate` listener: copy the playhead into the store and refresh
      the spectrum buffer. */
  method OnTimeUpdate(store: AudioStore, audio: MediaElement, magnitudes: seq<Byte>)
    modifies store`currentTime, store.frequencyData
    ensures store.currentTime == audio.currentTime
    ensures store.frequencyData != null && store.analyser != null ==>
      store.frequencyData[..] == Refill(old(store.frequencyData[..]), magnitudes)
    ensures store.frequencyData != null && store.analyser == null ==> unchanged(store.frequencyData)
  {
    store.SetCurrentTime(audio.currentTime);
    store.UpdateFrequencyData(magnitudes);
  }

  /** The `loadedmetadata` listener: record the duration, then build the graph;
      a failure to build it is caught and leaves the graph fields as they were. */
  method OnLoadedMetadata(store: AudioStore, audio: MediaElement, graphBuilt: bool)
    requires store.Valid()
    modifies store
    ensures store.Valid()
    ensures store.duration == audio.duration
    ensures store.isPlaying == old(store.isPlaying) && store.currentTime == old(store.currentTime)
    ensures store.volume == old(store.volume)
    ensures graphBuilt ==>
      && store.audioElement == audio
      && fresh(store.audioContext) && fresh(store.analyser) && fresh(store.frequencyData)
      && store.frequencyData.Length == BIN_COUNT
      && (forall k :: 0 <= k < store.frequencyData.Length ==> store.frequencyData[k] == 0)
      && store.contexts == old(store.contexts) + [store.audioContext]
    ensures !graphBuilt ==>
      && store.audioElement == old(store.audioElement)
      && store.audioContext == old(store.audioContext)
      && store.analyser == old(store.analyser)
      && store.frequencyData == old(store.frequencyData)
      && store.contexts == old(store.contexts)
  {
    store.SetDuration(audio.duration);
    if graphBuilt {
      store.InitializeAudio(audio);
    }
  }

  /** `handleSeek`: with an element and a non-zero duration, the element and
      the store both move to the slider's time; otherwise nothing changes. */
  method HandleSeek(store: AudioStore, audio: MediaElement?, sliderValue: real)
    modifies store`currentTime, audio
    ensures audio != null && store.duration != 0.0 ==>
      store.currentTime == audio.currentTime == SeekTime(sliderValue, store.duration)
    ensures audio == null || store.duration == 0.0 ==>
      store.currentTime == old(store.currentTime) && (audio != null ==> unchanged(audio))
    ensures audio != null ==>
      audio.paused == old(audio.paused) && audio.volume == old(audio.volume)
      && audio.duration == old(audio.duration)
  {
    if audio != null && store.duration != 0.0 {
      var newTime := SeekTime(sliderValue, store.duration);
      audio.currentTime := newTime;
      store.SetCurrentTime(newTime);
    }
  }

  /** The volume slider's change handler. */
  method OnVolumeSlider(store: AudioStore, sliderValue: real)
    modifies store`volume
    ensures store.volume == VolumeFromSlider(sliderValue)
  {
    store.SetVolume(VolumeFromSlider(sliderValue));
  }

  /** The effect run when `volume` changes: the element follows the store. */
  method ApplyVolume(store: AudioStore, audio: MediaElement?)
    modifies audio
    ensures audio != null ==>
      && audio.volume == store.volume
      && audio.paused == old(audio.paused)
      && audio.currentTime == old(audio.currentTime)
      && audio.duration == old(audio.duration)
  {
    if audio != null {
      audio.volume := store.volume;
    }
  }
}
