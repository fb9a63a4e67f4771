/** The value types of the engine: 4D and 3D points, the rotation
    parameters chosen in the control panel, the stored torus points and the
    per-frame projected points. */
module Types {

  /** A point of 4-space, the tuple [x, y, z, w]. */
  datatype Point4D = Point4D(x: real, y: real, z: real, w: real)
  {
    /** Coordinate k, counting x, y, z, w as 0, 1, 2, 3. */
    function At(k: nat): real
      requires k < 4
    {
      match k
      case 0 => x
      case 1 => y
      case 2 => z
      case _ => w
    }

    /** This point with coordinate k replaced by v. */
    function With(k: nat, v: real): (r: Point4D)
      requires k < 4
      ensures r.At(k) == v
      ensures forall j :: 0 <= j < 4 && j != k ==> r.At(j) == At(j)
    {
      match k
      case 0 => this.(x := v)
      case 1 => this.(y := v)
      case 2 => this.(z := v)
      case _ => this.(w := v)
    }

    /** x² + y² + z² + w² */
    function NormSq(): real
    {
      x * x + y * y + z * z + w * w
    }
  }

  /** A point of 3-space, the tuple [x, y, z]. */
  datatype Point3D = Point3D(x: real, y: real, z: real)
  {
    /** x² + y² + z² */
    function NormSq(): real
    {
      x * x + y * y + z * z
    }
  }

  /** The viewing rotation `rotation.current`: x is the pitch (about the
      horizontal axis), y the yaw (about the vertical axis). */
  datatype ViewRotation = ViewRotation(x: real, y: real)

  /** The control panel's parameters: a point count and one angular speed
      per rotation plane. */
  datatype TorusParameters = TorusParameters(
    pointCount: int,
    rotationSpeedXY: real,
    rotationSpeedXZ: real,
    rotationSpeedXW: real,
    rotationSpeedYZ: real,
    rotationSpeedYW: real,
    rotationSpeedZW: real)

  /** A CSS colour string. */
  type Color = string

  /** A stored point: its id, its position on the torus and its colour. */
  datatype TorusPoint = TorusPoint(id: nat, original: Point4D, color: Color)

  /** A point as drawn in one frame: id, screen position, view-space depth z
      and colour. */
  datatype ProjectedPoint = ProjectedPoint(id: nat, x: real, y: real, z: real, color: Color)
}
