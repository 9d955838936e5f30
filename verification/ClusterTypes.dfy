/**
  The records the cluster maker reads and writes: reconstructed hits, the
  polar points built from them, and the clusters that own those points.
 */
module ClusterTypes {

  import opened Geometry

  /**
    One reconstructed hit: the plane and wire it sits on, its peak time
    (ticks), its integrated charge, and the key that refers back to it.
   */
  datatype Hit = Hit(plane: nat, wire: nat, peakTime: real, integral: real, key: nat)

  /**
    A point's angle in degrees. A hit that sits exactly on its plane's
    anchor has radius 0; the C++ code then divides 0 by 0 and the IEEE result
    is not a number, which `NaN` stands for.
   */
  datatype Angle = Degrees(value: real) | NaN

  /**
    A polar point: radius and angle around the plane's anchor, the scaled
    wire and time coordinates (cm), the charge, the plane, and the hit key.
   */
  datatype Pt = Pt(r: real, angle: Angle, w: real, t: real, q: real, plane: nat, idx: nat)

  /** A cluster stores the ordered points it was given. */
  datatype Cluster = Cluster(pts: seq<Pt>)

  /** Every hit names one of the three planes, so the anchor arrays can be indexed by it. */
  predicate OnPlanes(hits: seq<Hit>) {
    forall i :: 0 <= i < |hits| ==> hits[i].plane < PLANES
  }
}
