/** `NebulaParticles`: thirty particles drift on circles around the scene.
    Each is given a spectrum bin when the component mounts; every frame it
    advances its angle with the bass level, swells with its bin's amplitude
    and the mid level, and brightens with its amplitude. */
module NebulaParticles {
  import opened Common
  import opened Spectrum
  import opened Scene
  import opened Audio

  const PARTICLE_COUNT: nat := 30

  /** Bin count assumed at mount time when no buffer exists yet. */
  const FALLBACK_LENGTH: nat := 128

  /** `Math.PI * 2` as a double. */
  const TWO_PI: real := 6.283185307179586

  /** The length used to spread the particles over the bins:
      `frequencyData?.length || 128`, so a missing or empty buffer counts as 128. */
  function MountLength(bufferLength: Option<nat>): (r: nat)
    ensures r > 0
    ensures bufferLength.Some? && bufferLength.value > 0 ==> r == bufferLength.value
    ensures bufferLength.None? || bufferLength.value == 0 ==> r == FALLBACK_LENGTH
  {
    match bufferLength
    case Some(n) => if n == 0 then FALLBACK_LENGTH else n
    case None => FALLBACK_LENGTH
  }

  /** The length of the store's buffer as the component sees it at mount. */
  function StoreBufferLength(store: AudioStore): (r: Option<nat>)
    reads store
    ensures r.Some? <==> store.frequencyData != null
    ensures store.frequencyData != null ==> r.value == store.frequencyData.Length
  {
    if store.frequencyData == null then None else Some(store.frequencyData.Length)
  }

  /** Whether the store has its buffer or not, the mount-time length is the
      store's bin count, so a bin chosen at mount is still a valid index into
      the buffer at every later frame. */
  lemma MountIndexFitsStoreBuffer(store: AudioStore, i: nat)
    requires store.Valid()
    requires i < PARTICLE_COUNT
    ensures MountLength(StoreBufferLength(store)) == BIN_COUNT
    ensures BinIndex(i, PARTICLE_COUNT, MountLength(StoreBufferLength(store))) < BIN_COUNT
    ensures store.frequencyData != null ==>
      BinIndex(i, PARTICLE_COUNT, MountLength(StoreBufferLength(store))) < store.frequencyData.Length
  {
  }

  /** The six `Math.random()` results drawn for one particle, each in [0, 1). */
  datatype Draw = Draw(radius: real, angle: real, height: real, speed: real, size: real, hue: real)

  predicate UnitDraw(d: Draw)
  {
    && 0.0 <= d.radius < 1.0 && 0.0 <= d.angle < 1.0 && 0.0 <= d.height < 1.0
    && 0.0 <= d.speed < 1.0 && 0.0 <= d.size < 1.0 && 0.0 <= d.hue < 1.0
  }

  /** One particle. Only its angle changes after mount. */
  class Particle {
    const radius: real
    const baseY: real
    const speed: real
    const size: real
    const colorHue: real
    const freqIndex: nat
    var angle: real

    /** The object literal pushed for particle `i` with mount length `len`. */
    constructor (i: nat, len: nat, d: Draw)
      requires i < PARTICLE_COUNT
      ensures radius == 5.0 + d.radius * 15.0
      ensures angle == d.angle * TWO_PI
      ensures baseY == (d.height - 0.5) * 10.0
      ensures speed == 0.001 + d.speed * 0.002
      ensures size == 0.2 + d.size * 0.5
      ensures colorHue == d.hue * 360.0
      ensures freqIndex == BinIndex(i, PARTICLE_COUNT, len)
    {
      radius := 5.0 + d.radius * 15.0;
      angle := d.angle * TWO_PI;
      baseY := (d.height - 0.5) * 10.0;
      speed := 0.001 + d.speed * 0.002;
      size := 0.2 + d.size * 0.5;
      colorHue := d.hue * 360.0;
      freqIndex := BinIndex(i, PARTICLE_COUNT, len);
    }
  }

  /** The ranges the random draws put each particle's constants in. */
  predicate InRange(p: Particle)
  {
    && 5.0 <= p.radius < 20.0
    && -5.0 <= p.baseY < 5.0
    && 0.001 <= p.speed < 0.003
    && 0.2 <= p.size < 0.7
    && 0.0 <= p.colorHue < 360.0
  }

  /** No particle object appears twice in the list. */
  predicate Distinct(particles: seq<Particle>)
  {
    forall a, b :: 0 <= a < b < |particles| ==> particles[a] != particles[b]
  }

  /** The `useMemo` that builds the particle list once, at mount. */
  method CreateParticles(bufferLength: Option<nat>, draws: seq<Draw>) returns (particles: seq<Particle>)
    requires |draws| == PARTICLE_COUNT
    requires forall k :: 0 <= k < |draws| ==> UnitDraw(draws[k])
    ensures |particles| == PARTICLE_COUNT
    ensures Distinct(particles)
    ensures forall k :: 0 <= k < |particles| ==> fresh(particles[k])
    ensures forall k :: 0 <= k < |particles| ==>
      && particles[k].freqIndex == BinIndex(k, PARTICLE_COUNT, MountLength(bufferLength))
      && particles[k].freqIndex < MountLength(bufferLength)
      && particles[k].angle == draws[k].angle * TWO_PI
      && InRange(particles[k])
  {
    var len := MountLength(bufferLength);
    particles := [];
    for i := 0 to PARTICLE_COUNT
      invariant |particles| == i
      invariant Distinct(particles)
      invariant forall k :: 0 <= k < i ==> fresh(particles[k])
      invariant forall k :: 0 <= k < i ==>
        && particles[k].freqIndex == BinIndex(k, PARTICLE_COUNT, len)
        && particles[k].freqIndex < len
        && particles[k].angle == draws[k].angle * TWO_PI
        && InRange(particles[k])
    {
      var p := new Particle(i, len, draws[i]);
      particles := particles + [p];
    }
  }

  /** How far a particle turns in one frame: `speed * (2 + smoothedBass * 5)`. */
  function AngleStep(speed: real, bass: real): (r: real)
    ensures speed > 0.0 && bass >= 0.0 ==> r >= 2.0 * speed
  {
    speed * (2.0 + bass * 5.0)
  }

  /** A stronger bass never turns a particle less. */
  lemma AngleStepMonotonic(speed: real, bass1: real, bass2: real)
    requires speed > 0.0
    ensures bass1 <= bass2 <==> AngleStep(speed, bass1) <= AngleStep(speed, bass2)
  {
    if bass1 > bass2 {
      assert AngleStep(speed, bass1) - AngleStep(speed, bass2) == speed * 5.0 * (bass1 - bass2);
    }
  }

  /** Instance scale `size * (0.6 + amplitude + smoothedMid * 0.8)`. */
  function OrbScale(size: real, amplitude: real, mid: real): (r: real)
    ensures size > 0.0 && amplitude >= 0.0 && mid >= 0.0 ==> r >= 0.6 * size > 0.0
  {
    size * (0.6 + amplitude + mid * 0.8)
  }

  /** The audio-dependent part of particle `p`'s matrix: its circle widens by
      four times the amplitude, it rises by three times the amplitude, and it is
      scaled uniformly. */
  function Orb(p: Particle, amplitude: real, mid: real): (t: Transform)
    ensures t.radial - p.radius == 4.0 * amplitude
    ensures t.y - p.baseY == 3.0 * amplitude
    ensures t.sx == t.sy == t.sz == OrbScale(p.size, amplitude, mid)
  {
    var s := OrbScale(p.size, amplitude, mid);
    Transform(p.radius + amplitude * 4.0, p.baseY + amplitude * 3.0, s, s, s)
  }

  /** A louder bin moves a particle outwards, upwards and makes it bigger. */
  lemma OrbGrowsWithAmplitude(p: Particle, a1: real, a2: real, mid: real)
    requires p.size > 0.0
    requires a1 <= a2
    ensures Orb(p, a1, mid).radial <= Orb(p, a2, mid).radial
    ensures Orb(p, a1, mid).y <= Orb(p, a2, mid).y
    ensures Orb(p, a1, mid).sx <= Orb(p, a2, mid).sx
  {
    assert OrbScale(p.size, a2, mid) - OrbScale(p.size, a1, mid) == p.size * (a2 - a1);
  }

  /** Saturation `0.8 + amplitude * 0.2` and lightness `0.5 + amplitude * 0.3`. */
  function Glow(amplitude: real): (c: Shade)
    ensures 0.0 <= amplitude <= 1.0 ==> 0.8 <= c.saturation <= 1.0 && 0.5 <= c.lightness <= 0.8
    ensures (c.saturation - 0.8) * 5.0 == amplitude
  {
    Shade(0.8 + amplitude * 0.2, 0.5 + amplitude * 0.3)
  }

  /** Two amplitudes give the same colour exactly when they are equal. */
  lemma GlowInjective(a1: real, a2: real)
    ensures Glow(a1) == Glow(a2) <==> a1 == a2
  {
    if Glow(a1) == Glow(a2) {
      assert a1 == (Glow(a1).saturation - 0.8) * 5.0;
    }
  }

  /** Every particle's bin lies inside the spectrum. */
  predicate IndexesFit(particles: seq<Particle>, spectrum: seq<Byte>)
  {
    forall k :: 0 <= k < |particles| ==> particles[k].freqIndex < |spectrum|
  }

  /** The amplitude particle `p` reads from `spectrum`. */
  function ParticleAmplitude(p: Particle, spectrum: seq<Byte>): (r: real)
    requires p.freqIndex < |spectrum|
    ensures 0.0 <= r <= 1.0
  {
    Amplitude(spectrum[p.freqIndex])
  }

  /** The matrices a frame writes, slot `k` for particle `k`. */
  function Cloud(particles: seq<Particle>, spectrum: seq<Byte>, mid: real): (r: seq<Transform>)
    requires IndexesFit(particles, spectrum)
    ensures |r| == |particles|
  {
    seq(|particles|, k requires 0 <= k < |particles| =>
      Orb(particles[k], ParticleAmplitude(particles[k], spectrum), mid))
  }

  /** The colours a frame writes, slot `k` for particle `k`. */
  function Glows(particles: seq<Particle>, spectrum: seq<Byte>): (r: seq<Shade>)
    requires IndexesFit(particles, spectrum)
    ensures |r| == |particles|
    ensures forall k :: 0 <= k < |r| ==>
      0.8 <= r[k].saturation <= 1.0 && 0.5 <= r[k].lightness <= 0.8
  {
    seq(|particles|, k requires 0 <= k < |particles| =>
      Glow(ParticleAmplitude(particles[k], spectrum)))
  }

  /** One iteration of the frame loop: particle `p`, in slot `i`, turns by its
      step and its slot receives its transform and colour. */
  method Animate(mesh: InstancedMesh, i: nat, p: Particle, spectrum: seq<Byte>, bass: real, mid: real)
    requires i < mesh.matrices.Length && i < mesh.colors.Length
    requires p.freqIndex < |spectrum|
    modifies p, mesh.matrices, mesh.colors
    ensures p.angle == old(p.angle) + AngleStep(p.speed, bass)
    ensures mesh.matrices[..] == old(mesh.matrices[..])[i := Orb(p, ParticleAmplitude(p, spectrum), mid)]
    ensures mesh.colors[..] == old(mesh.colors[..])[i := Glow(ParticleAmplitude(p, spectrum))]
  {
    var amplitude := Amplitude(spectrum[p.freqIndex]);
    p.angle := p.angle + AngleStep(p.speed, bass);
    mesh.matrices[i] := Orb(p, amplitude, mid);
    mesh.colors[i] := Glow(amplitude);
  }

  /** The per-frame callback. Without a mesh or a spectrum buffer nothing
      changes; otherwise every particle turns by its step and slot `k` of the
      matrices and colours is rewritten for particle `k`. */
  method Frame(mesh: InstancedMesh?, store: AudioStore, particles: seq<Particle>, bass: real, mid: real)
    requires store.Valid()
    requires Distinct(particles)
    requires forall k :: 0 <= k < |particles| ==> particles[k].freqIndex < BIN_COUNT
    requires mesh != null ==> mesh.matrices.Length == |particles| && mesh.colors.Length == |particles|
    modifies Footprint(mesh), particles
    ensures mesh == null || store.frequencyData == null ==>
      unchanged(particles) && (mesh != null ==> unchanged(mesh, mesh.matrices, mesh.colors))
    ensures mesh != null && store.frequencyData != null ==>
      && IndexesFit(particles, store.frequencyData[..])
      && (forall k :: 0 <= k < |particles| ==>
            particles[k].angle == old(particles[k].angle) + AngleStep(particles[k].speed, bass))
      && mesh.matrices[..] == Cloud(particles, store.frequencyData[..], mid)
      && mesh.colors[..] == Glows(particles, store.frequencyData[..])
      && mesh.matricesNeedUpdate && mesh.colorsNeedUpdate
    ensures mesh != null ==> mesh.rotationY == old(mesh.rotationY) && mesh.positionY == old(mesh.positionY)
  {
    if mesh == null || store.frequencyData == null {
      return;
    }
    var spectrum := store.frequencyData[..];
    assert IndexesFit(particles, spectrum);
    var cloud, glows := Cloud(particles, spectrum, mid), Glows(particles, spectrum);
    for i := 0 to |particles|
      modifies mesh.matrices, mesh.colors, particles
      invariant forall k :: 0 <= k < i ==>
        particles[k].angle == old(particles[k].angle) + AngleStep(particles[k].speed, bass)
      invariant forall k :: i <= k < |particles| ==> particles[k].angle == old(particles[k].angle)
      invariant mesh.matrices[..i] == cloud[..i]
      invariant mesh.colors[..i] == glows[..i]
    {
      Animate(mesh, i, particles[i], spectrum, bass, mid);
      assert mesh.matrices[..i + 1] == cloud[..i + 1];
      assert mesh.colors[..i + 1] == glows[..i + 1];
    }
    assert mesh.matrices[..] == mesh.matrices[..|particles|];
    assert mesh.colors[..] == mesh.colors[..|particles|];
    mesh.matricesNeedUpdate := true;
    // `setColorAt` has created the colour buffer by now, so it is flagged too.
    mesh.colorsNeedUpdate := true;
  }
}
