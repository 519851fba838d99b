/** The three.js objects the visualizer writes into each frame, reduced to the
    numbers that depend on the audio. Positions around a ring are kept in
    cylindrical form (distance from the axis, height); the cosine/sine that turn
    them into x and z, and the rotations, are not modelled. */
module Scene {

  /** The audio-dependent part of one instance matrix. */
  datatype Transform = Transform(radial: real, y: real, sx: real, sy: real, sz: real)

  /** Saturation and lightness of one instance colour (the hue is not modelled). */
  datatype Shade = Shade(saturation: real, lightness: real)

  const Identity := Transform(0.0, 0.0, 1.0, 1.0, 1.0)

  /** An `InstancedMesh`: a fixed number of instance matrices and colours, the
      two upload flags, and the object's own y rotation and y position. */
  class InstancedMesh {
    const matrices: array<Transform>
    const colors: array<Shade>
    var matricesNeedUpdate: bool
    var colorsNeedUpdate: bool
    var rotationY: real
    var positionY: real

    /** `<instancedMesh args={[geometry, material, count]}>` */
    constructor (count: nat)
      ensures matrices.Length == count && colors.Length == count
      ensures fresh(matrices) && fresh(colors)
      ensures !matricesNeedUpdate && !colorsNeedUpdate
      ensures rotationY == 0.0 && positionY == 0.0
    {
      matrices := new Transform[count](_ => Identity);
      colors := new Shade[count](_ => Shade(0.0, 1.0));
      matricesNeedUpdate, colorsNeedUpdate := false, false;
      rotationY, positionY := 0.0, 0.0;
    }
  }

  /** The objects a frame may write for a mesh reference that may be empty. */
  function Footprint(mesh: InstancedMesh?): set<object>
  {
    if mesh == null then {} else {mesh, mesh.matrices, mesh.colors}
  }

  /** Two mesh references that do not share an object or a buffer. */
  predicate Apart(a: InstancedMesh?, b: InstancedMesh?)
  {
    a != null && b != null ==> a != b && a.matrices != b.matrices && a.colors != b.colors
  }
}
