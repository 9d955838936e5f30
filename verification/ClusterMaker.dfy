/**
  The cluster maker: it projects the event vertex onto each wire plane,
  rewrites every hit as a polar point around its plane's projection, and
  packs the points of each hit group into one cluster.

  `ClusterMaker.cxx`'s object keeps two calibration factors and two three-slot
  anchor arrays; here that state is the immutable `Maker`, threaded through
  the operations explicitly. Detector services (wire coordinates, trigger
  offset) and the math library arrive as parameters.
 */
module ClusterMaker {

  import opened Geometry
  import opened ClusterTypes

  /** Wire-direction de-biasing added to every anchor (cm); an empirical constant. */
  const WIRE_ANCHOR_SHIFT: real := 0.15
  /** Per-plane time-direction offset (cm per plane index); an empirical constant. */
  const PLANE_TIME_SHIFT: real := 0.3
  /** The approximation of π that `ClusterMaker.cxx` divides by (line 93) when converting radians to degrees. */
  const PI_APPROX: real := 3.1415

  /**
    The cluster maker's state: centimetres per wire and per time tick, and
    the wire (`vtxW`) and time (`vtxT`) coordinates of each plane's anchor.
   */
  datatype Maker = Maker(wire2cm: real, time2cm: real, vtxW: Triple, vtxT: Triple)

  /** A freshly constructed maker: the given calibration, every anchor at (0, 0). */
  function NewMaker(wire2cm: real, time2cm: real): (mk: Maker)
    ensures mk.wire2cm == wire2cm && mk.time2cm == time2cm
    ensures forall pl: nat :: pl < PLANES ==> mk.vtxW.At(pl) == 0.0 && mk.vtxT.At(pl) == 0.0
  {
    Maker(wire2cm, time2cm, ZERO, ZERO)
  }

  /** Wire coordinate (cm) of plane `pl`'s anchor for vertex `vtx`. */
  function WireAnchor(wire2cm: real, wireCoordinate: (nat, Point3) -> real, vtx: Point3, pl: nat): real {
    wireCoordinate(pl, vtx) * wire2cm + WIRE_ANCHOR_SHIFT
  }

  /** Time coordinate (cm) of plane `pl`'s anchor for vertex `vtx`. */
  function TimeAnchor(time2cm: real, triggerOffset: real, vtx: Point3, pl: nat): real {
    vtx.x + triggerOffset * time2cm + pl as real * PLANE_TIME_SHIFT
  }

  /** Every plane's anchor of `mk` is the projection of `vtx` with `mk`'s own calibration. */
  predicate AnchoredAt(mk: Maker, wireCoordinate: (nat, Point3) -> real, triggerOffset: real, vtx: Point3) {
    forall pl: nat :: pl < PLANES ==>
      && mk.vtxW.At(pl) == WireAnchor(mk.wire2cm, wireCoordinate, vtx, pl)
      && mk.vtxT.At(pl) == TimeAnchor(mk.time2cm, triggerOffset, vtx, pl)
  }

  /**
    Loads the event vertex. It succeeds exactly when there is one vertex
    candidate, and then overwrites the anchors of all three planes; on
    failure the state is returned untouched.
   */
  method LoadVertex(mk: Maker, wireCoordinate: (nat, Point3) -> real, triggerOffset: real, vertices: seq<Point3>)
    returns (ok: bool, mk': Maker)
    ensures ok <==> |vertices| == 1
    ensures !ok ==> mk' == mk
    ensures mk'.wire2cm == mk.wire2cm && mk'.time2cm == mk.time2cm
    ensures ok ==> AnchoredAt(mk', wireCoordinate, triggerOffset, vertices[0])
  {
    if |vertices| != 1 {
      return false, mk;
    }
    var vtx := vertices[0];
    mk' := mk;
    for pl: nat := 0 to PLANES
      invariant mk'.wire2cm == mk.wire2cm && mk'.time2cm == mk.time2cm
      invariant forall q: nat :: q < pl ==>
        && mk'.vtxW.At(q) == WireAnchor(mk.wire2cm, wireCoordinate, vtx, q)
        && mk'.vtxT.At(q) == TimeAnchor(mk.time2cm, triggerOffset, vtx, q)
    {
      mk' := mk'.(vtxW := mk'.vtxW.With(pl, WireAnchor(mk.wire2cm, wireCoordinate, vtx, pl)),
                  vtxT := mk'.vtxT.With(pl, TimeAnchor(mk.time2cm, triggerOffset, vtx, pl)));
    }
    ok := true;
  }

  /**
    A successful load leaves nothing of the previous anchors behind: two
    makers with the same calibration anchored at the same vertex are equal.
   */
  lemma AnchoredAtDetermines(a: Maker, b: Maker, wireCoordinate: (nat, Point3) -> real, triggerOffset: real, vtx: Point3)
    requires a.wire2cm == b.wire2cm && a.time2cm == b.time2cm
    requires AnchoredAt(a, wireCoordinate, triggerOffset, vtx)
    requires AnchoredAt(b, wireCoordinate, triggerOffset, vtx)
    ensures a == b
  {
    forall pl: nat | pl < PLANES
      ensures a.vtxW.At(pl) == b.vtxW.At(pl) && a.vtxT.At(pl) == b.vtxT.At(pl)
    {
    }
    assert a.vtxW.At(0) == b.vtxW.At(0) && a.vtxW.At(1) == b.vtxW.At(1) && a.vtxW.At(2) == b.vtxW.At(2);
    assert a.vtxT.At(0) == b.vtxT.At(0) && a.vtxT.At(1) == b.vtxT.At(1) && a.vtxT.At(2) == b.vtxT.At(2);
  }

  /** Distance from an anchor to the point offset from it by `dw` in wire and `dt` in time. */
  function Radius(math: MathLib, dw: real, dt: real): (r: real)
    ensures Lawful(math) ==> 0.0 <= r && r * r == dw * dw + dt * dt
  {
    math.sqrt(dt * dt + dw * dw)
  }

  /**
    Angle of the offset (`dw`, `dt`) as `ClusterMaker.cxx` computes it: `atan2` of
    the unit vector, converted to degrees with 3.1415 standing for π, then
    shifted by 180. At the anchor itself the radius is 0, both unit-vector
    components are 0/0, and the result is not a number.
   */
  function Bearing(math: MathLib, dw: real, dt: real): (a: Angle)
    ensures a.NaN? <==> Radius(math, dw, dt) == 0.0
  {
    var r := Radius(math, dw, dt);
    if r == 0.0 then NaN
    else Degrees(math.atan2(dt / r, dw / r) * 180.0 / PI_APPROX + 180.0)
  }

  /** Wire offset (cm) of hit `h` from its own plane's anchor. */
  function WireOffset(mk: Maker, h: Hit): real
    requires h.plane < PLANES
  {
    h.wire as real * mk.wire2cm - mk.vtxW.At(h.plane)
  }

  /** Time offset (cm) of hit `h` from its own plane's anchor. */
  function TimeOffset(mk: Maker, h: Hit): real
    requires h.plane < PLANES
  {
    h.peakTime * mk.time2cm - mk.vtxT.At(h.plane)
  }

  /**
    The polar point of one hit. Wire and time are scaled to cm; radius and
    angle are measured around the anchor of the hit's own plane; charge,
    plane and hit key pass through unchanged.
   */
  function MakePt(math: MathLib, mk: Maker, h: Hit): (p: Pt)
    requires h.plane < PLANES
    ensures p.w == h.wire as real * mk.wire2cm && p.t == h.peakTime * mk.time2cm
    ensures p.q == h.integral && p.plane == h.plane && p.idx == h.key
    ensures p.r == Radius(math, WireOffset(mk, h), TimeOffset(mk, h))
    ensures p.angle == Bearing(math, WireOffset(mk, h), TimeOffset(mk, h))
    ensures Lawful(math) ==>
      && 0.0 <= p.r
      && p.r * p.r == WireOffset(mk, h) * WireOffset(mk, h) + TimeOffset(mk, h) * TimeOffset(mk, h)
  {
    var hw := h.wire as real * mk.wire2cm;
    var ht := h.peakTime * mk.time2cm;
    var dw := WireOffset(mk, h);
    var dt := TimeOffset(mk, h);
    Pt(Radius(math, dw, dt), Bearing(math, dw, dt), hw, ht, h.integral, h.plane, h.key)
  }

  /** The points of a hit list: one per hit, in hit order. */
  function BuildPoints(math: MathLib, mk: Maker, hits: seq<Hit>): (pts: seq<Pt>)
    requires OnPlanes(hits)
    ensures |pts| == |hits|
    ensures forall i :: 0 <= i < |hits| ==> pts[i] == MakePt(math, mk, hits[i])
  {
    if hits == [] then []
    else [MakePt(math, mk, hits[0])] + BuildPoints(math, mk, hits[1..])
  }

  /** Building the points of two hit lists back to back is building each and concatenating. */
  lemma {:induction false} BuildPointsAppend(math: MathLib, mk: Maker, a: seq<Hit>, b: seq<Hit>)
    requires OnPlanes(a) && OnPlanes(b)
    ensures OnPlanes(a + b)
    ensures BuildPoints(math, mk, a + b) == BuildPoints(math, mk, a) + BuildPoints(math, mk, b)
  {
    var l := BuildPoints(math, mk, a + b);
    var r := BuildPoints(math, mk, a) + BuildPoints(math, mk, b);
    forall i | 0 <= i < |l|
      ensures l[i] == r[i]
    {
      if i < |a| {
        calc {
          l[i];
          MakePt(math, mk, (a + b)[i]);
          { assert (a + b)[i] == a[i]; }
          MakePt(math, mk, a[i]);
          BuildPoints(math, mk, a)[i];
          r[i];
        }
      } else {
        calc {
          l[i];
          MakePt(math, mk, (a + b)[i]);
          { assert (a + b)[i] == b[i - |a|]; }
          MakePt(math, mk, b[i - |a|]);
          BuildPoints(math, mk, b)[i - |a|];
          r[i];
        }
      }
    }
  }

  /**
    A hit's point reads only the calibration and its own plane's anchor:
    makers that agree on those give the same point.
   */
  lemma PointReadsOwnPlaneOnly(math: MathLib, a: Maker, b: Maker, h: Hit)
    requires h.plane < PLANES
    requires a.wire2cm == b.wire2cm && a.time2cm == b.time2cm
    requires a.vtxW.At(h.plane) == b.vtxW.At(h.plane) && a.vtxT.At(h.plane) == b.vtxT.At(h.plane)
    ensures MakePt(math, a, h) == MakePt(math, b, h)
  {
    assert WireOffset(a, h) == WireOffset(b, h);
    assert TimeOffset(a, h) == TimeOffset(b, h);
  }

  /**
    Fills the point list of one hit list. Whatever the output held before
    is discarded; afterwards it holds one point per hit, in hit order.
   */
  method GetClusterPts(math: MathLib, mk: Maker, hits: seq<Hit>, ptV: seq<Pt>) returns (ptV': seq<Pt>)
    requires OnPlanes(hits)
    ensures |ptV'| == |hits|
    ensures ptV' == BuildPoints(math, mk, hits)
  {
    ptV' := [];
    for i := 0 to |hits|
      invariant |ptV'| == i
      invariant forall j :: 0 <= j < i ==> ptV'[j] == MakePt(math, mk, hits[j])
    {
      ptV' := ptV' + [MakePt(math, mk, hits[i])];
    }
  }

  /**
    Builds one cluster from one hit list, with whatever anchors `mk`
    currently holds; the vertex is not consulted.
   */
  method MakeCluster(math: MathLib, mk: Maker, hits: seq<Hit>, cluster: Cluster) returns (cluster': Cluster)
    requires OnPlanes(hits)
    ensures |cluster'.pts| == |hits|
    ensures cluster'.pts == BuildPoints(math, mk, hits)
  {
    var pts := GetClusterPts(math, mk, hits, []);
    cluster' := Cluster(pts);
  }

  /**
    Builds the clusters of an event. Without exactly one vertex candidate
    it returns at once: state and output are unchanged (the output is not
    cleared). Otherwise the anchors are reloaded from that vertex, the
    output is cleared, and cluster `c` holds the points of hit group `c`.
   */
  method MakeClusters(math: MathLib, mk: Maker, wireCoordinate: (nat, Point3) -> real, triggerOffset: real,
                      groups: seq<seq<Hit>>, vertices: seq<Point3>, clusters: seq<Cluster>)
    returns (mk': Maker, clusters': seq<Cluster>)
    requires |vertices| == 1 ==> forall c :: 0 <= c < |groups| ==> OnPlanes(groups[c])
    ensures mk'.wire2cm == mk.wire2cm && mk'.time2cm == mk.time2cm
    ensures |vertices| != 1 ==> mk' == mk && clusters' == clusters
    ensures |vertices| == 1 ==> AnchoredAt(mk', wireCoordinate, triggerOffset, vertices[0])
    ensures |vertices| == 1 ==> |clusters'| == |groups|
    ensures |vertices| == 1 ==>
      forall c :: 0 <= c < |groups| ==> clusters'[c].pts == BuildPoints(math, mk', groups[c])
  {
    var ok;
    ok, mk' := LoadVertex(mk, wireCoordinate, triggerOffset, vertices);
    if !ok {
      return mk', clusters;
    }
    clusters' := [];
    for c := 0 to |groups|
      invariant |clusters'| == c
      invariant forall k :: 0 <= k < c ==> clusters'[k].pts == BuildPoints(math, mk', groups[k])
    {
      var pts := GetClusterPts(math, mk', groups[c], []);
      clusters' := clusters' + [Cluster(pts)];
    }
  }
}
