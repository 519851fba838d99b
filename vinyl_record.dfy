/** `VinylRecord`: the record turns while the music plays and bobs up and
    down by an amount that follows the mean loudness of the spectrum. */
module VinylRecord {
  import opened Spectrum
  import opened Audio

  /** Turning speed in radians per second (about 33 rpm). */
  const SPIN_RATE: real := 2.0

  /** Largest wobble amplitude, reached when every bin is 255. */
  const MAX_WOBBLE: real := 0.02

  /** The record mesh: its z rotation and its y position. */
  class Record {
    var rotationZ: real
    var positionY: real

    /** `<mesh position={[0, 0.1, 0]}>` */
    constructor ()
      ensures rotationZ == 0.0 && positionY == 0.1
    {
      rotationZ, positionY := 0.0, 0.1;
    }
  }

  /** `(avgFreq / 255) * 0.02` for a non-empty buffer. */
  function Wobble(spectrum: seq<Byte>): (r: real)
    requires |spectrum| > 0
    ensures 0.0 <= r <= MAX_WOBBLE
  {
    Average(spectrum) / 255.0 * MAX_WOBBLE
  }

  /** A silent buffer does not wobble and a saturated one wobbles the most. */
  lemma WobbleExtremes(n: nat)
    requires n > 0
    ensures Wobble(seq(n, _ => 0)) == 0.0
    ensures Wobble(seq(n, _ => 255)) == MAX_WOBBLE
  {
    AverageConstant(n, 0);
    AverageConstant(n, 255);
  }

  /** The per-frame callback. `delta` is the time since the last frame and
      `sine` stands for `Math.sin(elapsedTime * 4)`, a value in [-1, 1].
      Nothing changes while paused or unmounted; while playing the record turns
      by `2 * delta`, and when the buffer exists its height is the sine scaled
      by the wobble. */
  method Frame(record: Record?, store: AudioStore, delta: real, sine: real)
    requires store.Valid()
    requires -1.0 <= sine <= 1.0
    modifies record
    ensures record != null && !store.isPlaying ==> unchanged(record)
    ensures record != null && store.isPlaying ==>
      record.rotationZ == old(record.rotationZ) + SPIN_RATE * delta
    ensures record != null && store.isPlaying && store.frequencyData == null ==>
      record.positionY == old(record.positionY)
    ensures record != null && store.isPlaying && store.frequencyData != null ==>
      && record.positionY == sine * Wobble(store.frequencyData[..])
      && -MAX_WOBBLE <= record.positionY <= MAX_WOBBLE
  {
    if record != null && store.isPlaying {
      record.rotationZ := record.rotationZ + delta * SPIN_RATE;
      if store.frequencyData != null {
        var wobble := Wobble(store.frequencyData[..]);
        record.positionY := sine * wobble;
        BoundedProduct(sine, wobble);
      }
    }
  }

  lemma BoundedProduct(sine: real, wobble: real)
    requires -1.0 <= sine <= 1.0
    requires 0.0 <= wobble <= MAX_WOBBLE
    ensures -MAX_WOBBLE <= sine * wobble <= MAX_WOBBLE
  {
    if sine >= 0.0 {
      assert sine * wobble <= 1.0 * wobble;
    } else {
      assert sine * wobble >= -1.0 * wobble;
    }
  }
}
