/** The 64-bar ring (src/components/visualizer/SpectrumRing.tsx): each frame,
    bar `i` reads bin `floor(i / 64 * len)` and becomes a box of height
    `0.2 + 2 * amplitude` standing on the floor. */
module SpectrumRing {
  import opened Spectrum
  import opened Scene
  import opened Audio

  const RING_COUNT: nat := 64
  const RADIUS: real := 4.0
  const BAR_WIDTH: real := 0.1

  /** The transform of bar `i` for the current spectrum. */
  function Bar(spectrum: seq<Byte>, i: nat): (t: Transform)
    requires i < RING_COUNT && |spectrum| > 0
    ensures 0.2 <= t.sy <= 2.2
    ensures t.y == t.sy / 2.0
    ensures t.sx == BAR_WIDTH && t.sz == BAR_WIDTH && t.radial == RADIUS
  {
    var amplitude := Amplitude(spectrum[BinIndex(i, RING_COUNT, |spectrum|)]);
    var height := 0.2 + amplitude * 2.0;
    Transform(RADIUS, height / 2.0, BAR_WIDTH, height, BAR_WIDTH)
  }

  /** A bar is at least as tall as another exactly when its bin is at least as loud. */
  lemma BarHeightFollowsBin(spectrum: seq<Byte>, i: nat, j: nat)
    requires i < RING_COUNT && j < RING_COUNT && |spectrum| > 0
    ensures Bar(spectrum, i).sy <= Bar(spectrum, j).sy <==>
      spectrum[BinIndex(i, RING_COUNT, |spectrum|)] <= spectrum[BinIndex(j, RING_COUNT, |spectrum|)]
  {
    AmplitudeOrder(spectrum[BinIndex(i, RING_COUNT, |spectrum|)], spectrum[BinIndex(j, RING_COUNT, |spectrum|)]);
  }

  /** On the store's 128-bin buffer, bar `i` reads bin `2 i`: every other bin,
      starting with bin 0. */
  lemma BarReadsEvenBins(i: nat)
    requires i < RING_COUNT
    ensures BinIndex(i, RING_COUNT, BIN_COUNT) == 2 * i
  {
    var r := BinIndex(i, RING_COUNT, BIN_COUNT);
    assert r * 64 <= i * 128 < r * 64 + 64;
  }

  /** The per-frame callback: with a mesh of 64 instances and a spectrum
      buffer, every slot 0..63 receives its bar and the matrices are flagged
      for upload; without either, nothing changes. */
  method Frame(mesh: InstancedMesh?, store: AudioStore)
    requires store.Valid()
    requires mesh != null ==> mesh.matrices.Length == RING_COUNT
    modifies Footprint(mesh)
    ensures mesh != null && store.frequencyData == null ==> unchanged(mesh, mesh.matrices)
    ensures mesh != null && store.frequencyData != null ==>
      && mesh.matricesNeedUpdate
      && forall k :: 0 <= k < RING_COUNT ==> mesh.matrices[k] == Bar(store.frequencyData[..], k)
    ensures mesh != null ==>
      && mesh.colorsNeedUpdate == old(mesh.colorsNeedUpdate)
      && mesh.rotationY == old(mesh.rotationY)
      && mesh.positionY == old(mesh.positionY)
      && unchanged(mesh.colors)
  {
    if mesh == null || store.frequencyData == null {
      return;
    }
    var spectrum := store.frequencyData[..];
    for i := 0 to RING_COUNT
      modifies mesh.matrices
      invariant forall k :: 0 <= k < i ==> mesh.matrices[k] == Bar(spectrum, k)
    {
      mesh.matrices[i] := Bar(spectrum, i);
    }
    mesh.matricesNeedUpdate := true;
  }
}
