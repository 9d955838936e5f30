# Cluster maker: polar hit clusters around the event vertex

This project models the cluster maker of the shower reconstruction's
cluster-merging stage (`ClusterMaker.cxx`). The cluster maker turns the
reconstructed hit groups of an event into "polar" clusters. It first projects
the single event vertex onto each of the three wire planes. That projection,
shifted by two empirical constants, is the plane's **anchor**. Each hit then
becomes a point carrying its scaled wire/time coordinates, its charge, its
plane, its hit key, and its radius and angle around its own plane's anchor.

The object's mutable state is the immutable `Maker`: two calibration factors
and two three-slot anchor arrays. Every operation takes that state and
returns the new one. The numeric routines `sqrt`, `atan2` and π form the
`MathLib` parameter. The ghost predicate `Geometry.Lawful` states the laws of
those routines that the proofs use. The detector services become plain
parameters: the per-plane wire coordinate of a 3D point and the trigger
offset. Scalars are modelled as exact reals.

Modules:

- `Geometry` holds the plane count, the three-slot `Triple`, 3D points and the math library.
- `ClusterTypes` holds the hits, polar points, angles and clusters.
- `ClusterMaker` holds the state, vertex loading, point building and cluster building.
- `PolarProperties` holds what the radius and angle mean: when the radius vanishes, which direction the angle measures, the range it covers, and a worked example.

Three behaviours of the code that a reader might not expect, and that the model keeps:

- **Angle at the anchor.** A hit lying exactly on its plane's anchor has radius 0. Lines 90-91 of `ClusterMaker.cxx` then divide 0 by 0, so the angle is IEEE NaN. The model returns `NaN` there.
- **No vertex.** Without exactly one vertex candidate, `MakeClusters` returns at lines 31-34, before the output is cleared at line 36. The output keeps whatever it held before.
- **Angle range.** Line 93 converts radians to degrees by dividing by 3.1415 rather than π. A point straight behind the anchor therefore gets an angle slightly above 360.

## Model

| member | source | states |
|---|---|---|
| ClusterMaker.NewMaker | ubreco/ShowerReco/ClusterMerging/CMToolBase/ClusterMaker.cxx:10-13 | a new maker keeps the given calibration and has both anchor coordinates 0 on all three planes |
| ClusterMaker.LoadVertex | ubreco/ShowerReco/ClusterMerging/CMToolBase/ClusterMaker.cxx:111-134 | succeeds iff there is exactly one vertex; on failure the state is unchanged; the calibration is always kept; on success every plane's anchor is `WireCoordinate(pl, vtx)*wire2cm + 0.15` in wire and `vtx.x + triggerOffset*time2cm + 0.3*pl` in time |
| ClusterMaker.AnchoredAtDetermines | ubreco/ShowerReco/ClusterMerging/CMToolBase/ClusterMaker.cxx:123-126 | a vertex load overwrites every anchor slot: two makers with the same calibration anchored at the same vertex are identical, whatever they held before |
| ClusterMaker.Radius | ubreco/ShowerReco/ClusterMerging/CMToolBase/ClusterMaker.cxx:87-88 | the radius is nonnegative and its square is the sum of the squared wire and time offsets |
| ClusterMaker.Bearing | ubreco/ShowerReco/ClusterMerging/CMToolBase/ClusterMaker.cxx:90-95 | the angle is undefined (NaN) exactly when the radius is 0 |
| ClusterMaker.MakePt | ubreco/ShowerReco/ClusterMerging/CMToolBase/ClusterMaker.cxx:80-99 | a point has wire and time scaled to cm; charge, plane and hit key pass through; radius and angle are taken around the anchor of the hit's own plane; the radius is the Euclidean distance to that anchor |
| ClusterMaker.BuildPoints | ubreco/ShowerReco/ClusterMerging/CMToolBase/ClusterMaker.cxx:78-103 | one point per hit, and point `i` is the point of hit `i` |
| ClusterMaker.BuildPointsAppend | ubreco/ShowerReco/ClusterMerging/CMToolBase/ClusterMaker.cxx:78-103 | points are built hit by hit: the points of two hit lists back to back are the two point lists concatenated |
| ClusterMaker.PointReadsOwnPlaneOnly | ubreco/ShowerReco/ClusterMerging/CMToolBase/ClusterMaker.cxx:80-91 | a hit's point depends only on the calibration and its own plane's anchor, not on the other planes' anchors |
| ClusterMaker.GetClusterPts | ubreco/ShowerReco/ClusterMerging/CMToolBase/ClusterMaker.cxx:73-106 | the prior output is discarded; the result has one point per hit, in hit order, each being that hit's point |
| ClusterMaker.MakeCluster | ubreco/ShowerReco/ClusterMerging/CMToolBase/ClusterMaker.cxx:60-71 | the cluster holds exactly the points of the hit list, as one iteration of the cluster loop builds them, with the anchors currently held |
| ClusterMaker.MakeClusters | ubreco/ShowerReco/ClusterMerging/CMToolBase/ClusterMaker.cxx:24-58 | without exactly one vertex the state and the output are both unchanged; otherwise the anchors are reloaded from that vertex and the output is replaced by one cluster per hit group, in group order, each holding that group's points |
| PolarProperties.RadiusIsDistance | ubreco/ShowerReco/ClusterMerging/CMToolBase/ClusterMaker.cxx:87-88 | the radius is the Euclidean distance to the anchor: it equals every nonnegative number whose square is the squared wire offset plus the squared time offset |
| PolarProperties.RadiusZeroIffAtAnchor | ubreco/ShowerReco/ClusterMerging/CMToolBase/ClusterMaker.cxx:87-88 | the radius is 0 if and only if both the wire and the time offset are 0 |
| PolarProperties.RadiusPositiveOffAnchor | ubreco/ShowerReco/ClusterMerging/CMToolBase/ClusterMaker.cxx:87-88 | away from the anchor the radius is strictly positive |
| PolarProperties.BearingIsOffsetDirection | ubreco/ShowerReco/ClusterMerging/CMToolBase/ClusterMaker.cxx:90-95 | away from the anchor, normalising by the radius does not change the direction: the angle is `atan2(dt, dw)*180/3.1415 + 180` |
| PolarProperties.BearingRange | ubreco/ShowerReco/ClusterMerging/CMToolBase/ClusterMaker.cxx:92-95 | a defined angle lies strictly between -0.006 and 360.006 degrees |
| PolarProperties.AheadOfAnchor | ubreco/ShowerReco/ClusterMerging/CMToolBase/ClusterMaker.cxx:87-95 | a point straight ahead of the anchor along the wire axis is at its wire distance and at angle 180 |
| PolarProperties.BehindAnchorExceeds360 | ubreco/ShowerReco/ClusterMerging/CMToolBase/ClusterMaker.cxx:92-95 | a point straight behind the anchor along the wire axis gets an angle above 360, because π is divided by 3.1415 |
| PolarProperties.AngleUndefinedIffOnAnchor | ubreco/ShowerReco/ClusterMerging/CMToolBase/ClusterMaker.cxx:84-95 | a hit's angle is undefined if and only if the hit lies on its own plane's anchor in both wire and time |
| PolarProperties.OnAxisExample | ubreco/ShowerReco/ClusterMerging/CMToolBase/ClusterMaker.cxx:84-95 | with 0.3 cm per wire, 0.05 cm per tick and anchor (10, 5), the hit on wire 40 at tick 100 has radius 2 and angle 180 |

## Left out

- Detector services: the wire pitch and the drift-velocity product that the constructor reads (lines 16-20) are not modelled. They become the `wire2cm` and `time2cm` arguments of `NewMaker`.
- Detector services: the per-plane wire coordinate and the trigger offset that `loadVertex` reads (lines 121-122) become the function `wireCoordinate` and the real `triggerOffset`.
- Console output (lines 32, 128-129) is not modelled, because it has no effect on the results.
- Single-precision float arithmetic and rounding are not modelled; all scalars are exact reals. IEEE special values appear only as the `NaN` angle at radius 0.
- `sqrt`, `atan2` and π are parameters. Their behaviour is constrained only by the laws in `Geometry.Lawful`; nothing else about them is modelled.
- The hit-to-cluster association and the art framework handles are plain sequences. The hit groups are `seq<seq<Hit>>` and the vertex candidates are `seq<Point3>`.
- `Cluster::SetHits` is not part of this model. A cluster simply stores the ordered points it is given; whatever the cluster class derives from them is not modelled.
- MakeClusters: a hit whose plane index is 3 or more reads outside the three-slot anchor arrays in the source, which is undefined behaviour. The model requires every hit's plane to be below 3, and only when a vertex is present, because only then are the hits read.
- GetClusterPts: the same plane-index precondition applies to its hits.
- MakeCluster: the same plane-index precondition applies to its hits.
- MakeCluster: with a cluster modelled as its point list, `MakeCluster` replaces the incoming cluster with the new points; nothing else a cluster may hold is modelled.
