// The ray-intersection interface of `bvh.rs`: the intersection record, how a
// hit or a miss of the ray-tracing kernel becomes one, the per-instance query,
// and the flattening of line strips into the vertex and index buffers the
// kernel is given.

module Bvh {
  import opened Vectors
  import opened Geometry
  import opened Rays
  import opened SceneComponents

  datatype BvhIntersection = BvhIntersection(instance: nat, element: nat, uv: Vec2,
                                             distance: real, hit: bool)

  /** `BvhIntersection::default`: no instance, no element, not a hit. */
  function DefaultIntersection(): BvhIntersection
  {
    BvhIntersection(Invalid, Invalid, Zero2(), 0.0, false)
  }

  /** Identifiers of the ray-tracing kernel are 32-bit. */
  const KernelIdLimit: nat := 4294967296

  /** What the kernel reports for one ray: nothing, or the instance, primitive,
      barycentric coordinates and distance of the closest hit. */
  datatype RayHit = NoHit | Hit(instId: nat, primId: nat, u: real, v: real, tfar: real)

  predicate RayHitOk(h: RayHit)
  {
    h.Hit? ==> h.instId < KernelIdLimit && h.primId < KernelIdLimit
  }

  /** The result mapping of `intersect`. */
  function FromRayHit(h: RayHit): BvhIntersection
  {
    if h.Hit? then BvhIntersection(h.instId, h.primId, Vec2(h.u, h.v), h.tfar, true)
    else DefaultIntersection()
  }

  /** A miss is the default record; a hit carries the kernel's closest hit, and
      since kernel identifiers are 32-bit, an intersection is a hit exactly when
      its instance is not `INVALID`. */
  lemma HitMapping(h: RayHit)
    requires RayHitOk(h)
    ensures FromRayHit(h).hit <==> h.Hit?
    ensures !h.Hit? ==> FromRayHit(h) == DefaultIntersection()
    ensures h.Hit? ==> FromRayHit(h).element == h.primId && FromRayHit(h).distance == h.tfar
    ensures FromRayHit(h).hit <==> FromRayHit(h).instance != Invalid
  {
  }

  /** `intersect`: the kernel's scene query, a parameter here, mapped to a record. */
  function Intersect(kernel: Ray -> RayHit, ray: Ray): BvhIntersection
  {
    FromRayHit(kernel(ray))
  }

  /** `intersect_instance`: the ray taken into the instance's frame with the
      non-rigid inverse, asked of that instance's shape, and a hit reported for
      the requested instance. */
  function IntersectInstance(shapeKernel: (nat, Ray) -> RayHit, instances: seq<Instance>,
                             instanceIdx: nat, ray: Ray): (bi: BvhIntersection)
    requires instanceIdx < |instances|
    ensures bi.hit ==> bi.instance == instanceIdx
    ensures !bi.hit ==> bi == DefaultIntersection()
  {
    var instance := instances[instanceIdx];
    var local := TransformRay(InverseFrame(instance.frame, true), ray);
    var bi := FromRayHit(shapeKernel(instance.shape, local));
    if bi.hit then bi.(instance := instanceIdx) else bi
  }

  /** A world ray that is the image of a ray of the instance's own space is asked
      of the shape as that ray, with the default distance range. */
  lemma InstanceQueryRay(shapeKernel: (nat, Ray) -> RayHit, instances: seq<Instance>,
                         instanceIdx: nat, r: Ray)
    requires instanceIdx < |instances| && Determinant(instances[instanceIdx].frame) != 0.0
    ensures var inst := instances[instanceIdx];
      var bi := FromRayHit(shapeKernel(inst.shape, NewRay(r.origin, r.direction)));
      IntersectInstance(shapeKernel, instances, instanceIdx, TransformRay(inst.frame, r))
        == if bi.hit then bi.(instance := instanceIdx) else bi
  {
    TransformRayRoundTrip(instances[instanceIdx].frame, r);
  }

  // ---------------------------------------------------------------------------
  // Line flattening

  /** A vertex of the line buffer: position and radius. */
  function LineVertex(positions: seq<Vec3>, radius: seq<real>, k: nat): Vec4
    requires k < |positions| && k < |radius|
  {
    Vec4(positions[k].x, positions[k].y, positions[k].z, radius[k])
  }

  /** Every line refers to existing vertices with a radius each. */
  predicate LinesOk(lines: seq<Int2>, positions: seq<Vec3>, radius: seq<real>)
  {
    forall k :: 0 <= k < |lines| ==>
      0 <= lines[k].x < |positions| && 0 <= lines[k].x < |radius| &&
      0 <= lines[k].y < |positions| && 0 <= lines[k].y < |radius|
  }

  /** The number of joints among the first `n` lines: lines that start where the
      previous one ended. */
  function Joints(lines: seq<Int2>, n: nat): (c: nat)
    requires n <= |lines|
    ensures c < n || n == 0
  {
    if n <= 1 then 0
    else Joints(lines, n - 1) + (if lines[n - 1].x == lines[n - 2].y then 1 else 0)
  }

  /** The flattening loop of `from_scene`: each line gets one index into the
      vertex buffer; a line that starts where the previous one ended shares its
      first vertex and adds one, any other line adds two. */
  method FlattenLines(lines: seq<Int2>, positions: seq<Vec3>, radius: seq<real>)
    returns (elines: seq<int>, epositions: seq<Vec4>)
    requires LinesOk(lines, positions, radius)
    ensures |elines| == |lines|
    ensures |epositions| == 2 * |lines| - Joints(lines, |lines|)
    ensures forall k :: 0 <= k < |lines| ==>
      0 <= elines[k] && elines[k] + 1 < |epositions|
      && epositions[elines[k]] == LineVertex(positions, radius, lines[k].x)
      && epositions[elines[k] + 1] == LineVertex(positions, radius, lines[k].y)
  {
    elines := [];
    epositions := [];
    var lastIndex := -1;
    var n := 0;
    while n < |lines|
      invariant 0 <= n <= |lines|
      invariant |elines| == n
      invariant |epositions| == 2 * n - Joints(lines, n)
      invariant n == 0 ==> lastIndex == -1
      invariant n > 0 ==>
        (lastIndex == lines[n - 1].y && |epositions| > 0
         && epositions[|epositions| - 1] == LineVertex(positions, radius, lines[n - 1].y))
      invariant forall k :: 0 <= k < n ==>
        0 <= elines[k] && elines[k] + 1 < |epositions|
        && epositions[elines[k]] == LineVertex(positions, radius, lines[k].x)
        && epositions[elines[k] + 1] == LineVertex(positions, radius, lines[k].y)
    {
      var l := lines[n];
      if lastIndex == l.x {
        elines := elines + [|epositions| - 1];
        epositions := epositions + [LineVertex(positions, radius, l.y)];
      } else {
        elines := elines + [|epositions|];
        epositions := epositions + [LineVertex(positions, radius, l.x), LineVertex(positions, radius, l.y)];
      }
      lastIndex := l.y;
      n := n + 1;
    }
  }

  /** The vertex buffer of a non-empty list holds between one vertex per line
      plus one (all lines joined) and two vertices per line, and exactly two per
      line iff no line starts where the previous one ended. */
  lemma FlattenedSize(lines: seq<Int2>)
    ensures |lines| > 0 ==> |lines| + 1 <= 2 * |lines| - Joints(lines, |lines|) <= 2 * |lines|
    ensures (forall k :: 0 < k < |lines| ==> lines[k].x != lines[k - 1].y) <==> Joints(lines, |lines|) == 0
  {
    NoJoints(lines, |lines|);
  }

  lemma {:induction false} NoJoints(lines: seq<Int2>, n: nat)
    requires n <= |lines|
    ensures (forall k :: 0 < k < n ==> lines[k].x != lines[k - 1].y) <==> Joints(lines, n) == 0
  {
    if n > 1 {
      NoJoints(lines, n - 1);
    }
  }
}
