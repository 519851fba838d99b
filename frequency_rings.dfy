/** The three band rings (src/components/visualizer/FrequencyRings.tsx): 24
    segments per ring whose heights follow the spectrum, scaled by the ring's
    smoothed band level and doubled on a beat; each ring also spins and rises
    with its level. The smoothed levels and the beat flag are inputs: the
    analysis that produces them is not part of this model. */
module FrequencyRings {
  import opened Spectrum
  import opened Scene
  import opened Audio
  import opened Common

  const SEGMENTS_PER_RING: nat := 24
  const BASE_HEIGHT: real := 0.3

  /** The store values the rings read besides the spectrum. */
  datatype Bands = Bands(bass: real, mid: real, treble: real, beat: bool)

  datatype Ring = BassRing | MidRing | TrebleRing

  /** The arguments each `updateRing` call passes. */
  function Level(ring: Ring, bands: Bands): real
  {
    match ring
    case BassRing => bands.bass
    case MidRing => bands.mid
    case TrebleRing => bands.treble
  }

  function Radius(ring: Ring): real
  {
    match ring
    case BassRing => 4.0
    case MidRing => 6.0
    case TrebleRing => 8.0
  }

  function HeightMultiplier(ring: Ring): real
  {
    match ring
    case BassRing => 8.0
    case MidRing => 6.0
    case TrebleRing => 4.0
  }

  /** The signed change of a ring's y rotation in one frame. */
  function Spin(ring: Ring, level: real): real
  {
    match ring
    case BassRing => 0.05 + level * 0.2
    case MidRing => -(0.04 + level * 0.15)
    case TrebleRing => 0.06 + level * 0.25
  }

  /** How high a ring is lifted per unit of its level. */
  function Lift(ring: Ring): real
  {
    match ring
    case BassRing => 4.0
    case MidRing => 3.0
    case TrebleRing => 2.0
  }

  function BeatBoost(beat: bool): real
  {
    if beat then 2.0 else 1.0
  }

  /** The transform of segment `i` of a ring. */
  function Segment(spectrum: seq<Byte>, i: nat, level: real, radius: real, heightMultiplier: real, beat: bool): (t: Transform)
    requires i < SEGMENTS_PER_RING && |spectrum| > 0
    ensures level >= 0.0 && heightMultiplier >= 0.0 ==> t.sy >= BASE_HEIGHT
    ensures 0.15 <= t.sx <= 0.45 && t.sz == t.sx
    ensures t.y == t.sy / 2.0
    ensures t.radial == radius + level * 2.0
  {
    var amplitude := Amplitude(spectrum[BinIndex(i, SEGMENTS_PER_RING, |spectrum|)]);
    var audioHeight := amplitude * heightMultiplier * (1.0 + level * 2.0);
    NonNegativeProduct(amplitude, heightMultiplier, 1.0 + level * 2.0, BeatBoost(beat));
    var height := BASE_HEIGHT + audioHeight * BeatBoost(beat);
    var scale := 0.15 + amplitude * 0.3;
    Transform(radius + level * 2.0, height / 2.0, scale, height, scale)
  }

  lemma NonNegativeProduct(a: real, b: real, c: real, d: real)
    ensures a >= 0.0 && b >= 0.0 && c >= 0.0 && d >= 0.0 ==> a * b * c * d >= 0.0
  {
    if a >= 0.0 && b >= 0.0 && c >= 0.0 && d >= 0.0 {
      assert a * b >= 0.0;
      assert a * b * c >= 0.0;
    }
  }

  /** A beat exactly doubles the part of a segment's height above the base. */
  lemma BeatDoublesAudioHeight(spectrum: seq<Byte>, i: nat, level: real, radius: real, heightMultiplier: real)
    requires i < SEGMENTS_PER_RING && |spectrum| > 0
    ensures Segment(spectrum, i, level, radius, heightMultiplier, true).sy - BASE_HEIGHT
         == 2.0 * (Segment(spectrum, i, level, radius, heightMultiplier, false).sy - BASE_HEIGHT)
    ensures Segment(spectrum, i, level, radius, heightMultiplier, true).sx
         == Segment(spectrum, i, level, radius, heightMultiplier, false).sx
  {
  }

  /** The 24 segment transforms of a ring, slot by slot. */
  function RingMatrices(spectrum: seq<Byte>, level: real, radius: real, heightMultiplier: real, beat: bool): (r: seq<Transform>)
    requires |spectrum| > 0
    ensures |r| == SEGMENTS_PER_RING
  {
    seq(SEGMENTS_PER_RING, k requires 0 <= k < SEGMENTS_PER_RING => Segment(spectrum, k, level, radius, heightMultiplier, beat))
  }

  /** The matrices a ring holds after its `updateRing` call in a frame. */
  function Drawing(ring: Ring, spectrum: seq<Byte>, bands: Bands): seq<Transform>
    requires |spectrum| > 0
  {
    RingMatrices(spectrum, Level(ring, bands), Radius(ring), HeightMultiplier(ring), bands.beat)
  }

  /** `updateRing`: with a mesh and a spectrum buffer, writes slots 0..23 and
      flags the matrices; without either, nothing changes. `spectrum` is the
      content of the store's buffer in this frame, `None` when there is none. */
  method UpdateRing(mesh: InstancedMesh?, spectrum: Option<seq<Byte>>, level: real, radius: real, heightMultiplier: real, beat: bool)
    requires spectrum.Some? ==> |spectrum.value| > 0
    requires mesh != null ==> mesh.matrices.Length == SEGMENTS_PER_RING
    modifies Footprint(mesh)
    ensures mesh != null && spectrum.None? ==> unchanged(mesh, mesh.matrices)
    ensures mesh != null && spectrum.Some? ==>
      && mesh.matricesNeedUpdate
      && mesh.matrices[..] == RingMatrices(spectrum.value, level, radius, heightMultiplier, beat)
    ensures mesh != null ==>
      && mesh.colorsNeedUpdate == old(mesh.colorsNeedUpdate)
      && mesh.rotationY == old(mesh.rotationY)
      && mesh.positionY == old(mesh.positionY)
      && unchanged(mesh.colors)
  {
    if mesh == null || spectrum.None? {
      return;
    }
    for i := 0 to SEGMENTS_PER_RING
      modifies mesh.matrices
      invariant forall k :: 0 <= k < i ==>
        mesh.matrices[k] == Segment(spectrum.value, k, level, radius, heightMultiplier, beat)
    {
      mesh.matrices[i] := Segment(spectrum.value, i, level, radius, heightMultiplier, beat);
    }
    mesh.matricesNeedUpdate := true;
  }

  /** Spins a ring by its step and sets its height from its level. */
  method Move(mesh: InstancedMesh, ring: Ring, level: real)
    modifies mesh`rotationY, mesh`positionY
    ensures mesh.rotationY == old(mesh.rotationY) + Spin(ring, level)
    ensures mesh.positionY == Lift(ring) * level
  {
    mesh.rotationY := mesh.rotationY + Spin(ring, level);
    mesh.positionY := level * Lift(ring);
  }

  /** One ring's share of a frame: its `updateRing` call, then, when the
      ring is mounted, its spin and height. */
  method FrameRing(mesh: InstancedMesh?, ring: Ring, spectrum: Option<seq<Byte>>, bands: Bands)
    requires spectrum.Some? ==> |spectrum.value| > 0
    requires mesh != null ==> mesh.matrices.Length == SEGMENTS_PER_RING
    modifies Footprint(mesh)
    ensures mesh != null ==>
      && mesh.rotationY == old(mesh.rotationY) + Spin(ring, Level(ring, bands))
      && mesh.positionY == Lift(ring) * Level(ring, bands)
      && mesh.matrices[..] == (if spectrum.None? then old(mesh.matrices[..])
                               else Drawing(ring, spectrum.value, bands))
      && (spectrum.Some? ==> mesh.matricesNeedUpdate)
      && mesh.colorsNeedUpdate == old(mesh.colorsNeedUpdate)
      && unchanged(mesh.colors)
  {
    UpdateRing(mesh, spectrum, Level(ring, bands), Radius(ring), HeightMultiplier(ring), bands.beat);
    if mesh != null {
      Move(mesh, ring, Level(ring, bands));
    }
  }

  /** The per-frame callback. The source runs the three `updateRing` calls
      before moving the rings; the rings share no state, so taking them one
      at a time gives the same result. Without a spectrum buffer the segments
      keep their matrices but the rings still move. */
  method Frame(bass: InstancedMesh?, mid: InstancedMesh?, treble: InstancedMesh?, store: AudioStore, bands: Bands)
    requires store.Valid()
    requires bass != null ==> bass.matrices.Length == SEGMENTS_PER_RING
    requires mid != null ==> mid.matrices.Length == SEGMENTS_PER_RING
    requires treble != null ==> treble.matrices.Length == SEGMENTS_PER_RING
    requires Apart(bass, mid) && Apart(bass, treble) && Apart(mid, treble)
    modifies Footprint(bass), Footprint(mid), Footprint(treble)
    ensures bass != null ==>
      && bass.rotationY == old(bass.rotationY) + Spin(BassRing, bands.bass)
      && bass.positionY == 4.0 * bands.bass
      && bass.matrices[..] == (if old(store.frequencyData) == null then old(bass.matrices[..])
                               else Drawing(BassRing, old(store.frequencyData[..]), bands))
      && (old(store.frequencyData) != null ==> bass.matricesNeedUpdate)
      && bass.colorsNeedUpdate == old(bass.colorsNeedUpdate)
      && unchanged(bass.colors)
    ensures mid != null ==>
      && mid.rotationY == old(mid.rotationY) + Spin(MidRing, bands.mid)
      && mid.positionY == 3.0 * bands.mid
      && mid.matrices[..] == (if old(store.frequencyData) == null then old(mid.matrices[..])
                              else Drawing(MidRing, old(store.frequencyData[..]), bands))
      && (old(store.frequencyData) != null ==> mid.matricesNeedUpdate)
      && mid.colorsNeedUpdate == old(mid.colorsNeedUpdate)
      && unchanged(mid.colors)
    ensures treble != null ==>
      && treble.rotationY == old(treble.rotationY) + Spin(TrebleRing, bands.treble)
      && treble.positionY == 2.0 * bands.treble
      && treble.matrices[..] == (if old(store.frequencyData) == null then old(treble.matrices[..])
                                 else Drawing(TrebleRing, old(store.frequencyData[..]), bands))
      && (old(store.frequencyData) != null ==> treble.matricesNeedUpdate)
      && treble.colorsNeedUpdate == old(treble.colorsNeedUpdate)
      && unchanged(treble.colors)
  {
    var spectrum := if store.frequencyData == null then None else Some(store.frequencyData[..]);
    FrameRing(bass, BassRing, spectrum, bands);
    FrameRing(mid, MidRing, spectrum, bands);
    FrameRing(treble, TrebleRing, spectrum, bands);
  }
}
