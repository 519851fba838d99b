/** The audio store (src/stores/audio.ts): transport fields written by four
    setters, and the analysis graph that `initializeAudio` builds once an audio
    element has loaded its metadata. The Web Audio objects are reduced to their
    identity and, for the analyser, its FFT size. */
module Audio {
  import opened Spectrum

  /** The FFT size the store gives its analyser. */
  const FFT_SIZE: nat := 256
  /** The FFT size of a freshly created `AnalyserNode`. */
  const DEFAULT_FFT_SIZE: nat := 2048
  /** The length of the store's spectrum buffer. */
  const BIN_COUNT: nat := FFT_SIZE / 2

  /** An `AudioContext`; only its identity matters to the store. */
  class AudioContext {
    constructor ()
    {
    }
  }

  /** An `AnalyserNode`. */
  class Analyser {
    var fftSize: nat

    constructor ()
      ensures fftSize == DEFAULT_FFT_SIZE
    {
      fftSize := DEFAULT_FFT_SIZE;
    }

    function FrequencyBinCount(): nat
      reads this
    {
      fftSize / 2
    }
  }

  /** The page's `<audio>` element: the fields the controls read and write. */
  class MediaElement {
    var paused: bool
    var currentTime: real
    var duration: real
    var volume: real

    constructor ()
      ensures paused && currentTime == 0.0 && duration == 0.0 && volume == 1.0
    {
      paused, currentTime, duration, volume := true, 0.0, 0.0, 1.0;
    }
  }

  /** The buffer after `getByteFrequencyData` copies the analyser's current
      magnitudes into it: the leading cells both have are overwritten, any
      further cell keeps its value, and the length never changes. */
  function Refill(buffer: seq<Byte>, magnitudes: seq<Byte>): (r: seq<Byte>)
    ensures |r| == |buffer|
    ensures forall k :: 0 <= k < |r| && k < |magnitudes| ==> r[k] == magnitudes[k]
    ensures forall k :: |magnitudes| <= k < |r| ==> r[k] == buffer[k]
  {
    if |magnitudes| >= |buffer| then magnitudes[..|buffer|] else magnitudes + buffer[|magnitudes|..]
  }

  /** When the analyser has exactly one magnitude per cell, the buffer becomes
      the analyser's spectrum, whatever it held before. */
  lemma RefillExact(buffer: seq<Byte>, magnitudes: seq<Byte>)
    requires |magnitudes| == |buffer|
    ensures Refill(buffer, magnitudes) == magnitudes
  {
  }

  /** `useAudioStore`. */
  class AudioStore {
    var isPlaying: bool
    var currentTime: real
    var duration: real
    var volume: real
    var audioContext: AudioContext?
    var analyser: Analyser?
    var frequencyData: array?<Byte>
    var audioElement: MediaElement?
    /** Every context whose graph the store has installed; none is ever closed. */
    ghost var contexts: seq<AudioContext>

    /** The graph fields are set together, and the buffer has one cell per
        frequency bin of an analyser of FFT size 256. */
    ghost predicate Valid()
      reads this, analyser
    {
      && (audioContext == null <==> analyser == null)
      && (analyser == null <==> frequencyData == null)
      && (frequencyData == null <==> audioElement == null)
      && (analyser != null ==>
            && analyser.fftSize == FFT_SIZE
            && frequencyData.Length == analyser.FrequencyBinCount() == BIN_COUNT)
      && (audioContext != null ==> |contexts| > 0 && contexts[|contexts| - 1] == audioContext)
    }

    /** The store's initial state. */
    constructor ()
      ensures Valid()
      ensures !isPlaying && currentTime == 0.0 && duration == 0.0 && volume == 1.0
      ensures audioContext == null && analyser == null && frequencyData == null && audioElement == null
      ensures contexts == []
    {
      isPlaying, currentTime, duration, volume := false, 0.0, 0.0, 1.0;
      audioContext, analyser, frequencyData, audioElement := null, null, null, null;
      contexts := [];
    }

    method SetPlaying(playing: bool)
      modifies this`isPlaying
      ensures isPlaying == playing
    {
      isPlaying := playing;
    }

    method SetCurrentTime(time: real)
      modifies this`currentTime
      ensures currentTime == time
    {
      currentTime := time;
    }

    method SetDuration(d: real)
      modifies this`duration
      ensures duration == d
    {
      duration := d;
    }

    /** Stores the level as given: no clamping to [0, 1]. */
    method SetVolume(level: real)
      modifies this`volume
      ensures volume == level
    {
      volume := level;
    }

    /** Builds a new context and analyser (FFT size 256), a zeroed buffer of
        128 bins, and records the element. Whatever graph was there before is
        dropped without being closed. */
    method InitializeAudio(element: MediaElement)
      modifies this`audioContext, this`analyser, this`frequencyData, this`audioElement, this`contexts
      ensures Valid()
      ensures fresh(audioContext) && fresh(analyser) && fresh(frequencyData)
      ensures audioElement == element
      ensures frequencyData.Length == BIN_COUNT
      ensures forall k :: 0 <= k < frequencyData.Length ==> frequencyData[k] == 0
      ensures contexts == old(contexts) + [audioContext]
    {
      var context := new AudioContext();
      var node := new Analyser();
      node.fftSize := FFT_SIZE;
      var data := new Byte[node.FrequencyBinCount()](_ => 0);
      audioContext, analyser, frequencyData, audioElement := context, node, data, element;
      contexts := contexts + [context];
    }

    /** Copies the analyser's current magnitudes into the buffer in place;
        without an analyser or a buffer it does nothing. */
    method UpdateFrequencyData(magnitudes: seq<Byte>)
      modifies frequencyData
      ensures frequencyData != null && analyser != null ==>
        frequencyData[..] == Refill(old(frequencyData[..]), magnitudes)
      ensures frequencyData != null && analyser == null ==> unchanged(frequencyData)
    {
      if analyser != null && frequencyData != null {
        var n := if |magnitudes| < frequencyData.Length then |magnitudes| else frequencyData.Length;
        forall k | 0 <= k < n {
          frequencyData[k] := magnitudes[k];
        }
      }
    }
  }

  /** Initialising for a second element leaves two contexts alive, the first
      one unreachable from the store. An element can be bound only once, so the
      second call needs a different element. */
  method Reinitialize(first: MediaElement, second: MediaElement) returns (store: AudioStore)
    requires first != second
    ensures store.Valid() && |store.contexts| == 2
    ensures store.contexts[0] != store.contexts[1] && store.audioContext == store.contexts[1]
    ensures store.audioElement == second
  {
    store := new AudioStore();
    store.InitializeAudio(first);
    store.InitializeAudio(second);
  }
}
