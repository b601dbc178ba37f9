/** The drawing reader: turns the model-space entities of a drawing into line
    strings, hands them to the polygonizer, and drops the faces that are too
    small to be rooms. Reading the drawing file and the noding/face
    extraction themselves are inputs of this module, not parts of it. */
module Extraction {
  import opened Wrappers
  import opened Geometry

  /** Faces whose area does not exceed this are noise, not rooms. */
  const NoiseArea: real := 0.000001

  /** One model-space entity, as the reader sees it. A polyline's vertices are
      read first through its point list and, when that raises, through its
      vertex records; `None` stands for a read that raised. */
  datatype Entity =
    | Line(start: Point, finish: Point)
    | Polyline(points: Option<seq<Point>>, vertices: Option<seq<Point>>)
    | Unsupported  // any other entity type, which the reader skips

  /** The vertex list of a polyline: the point list if it could be read, else
      the vertex records if they could be read, else nothing. */
  function VertexList(e: Entity): seq<Point>
    requires e.Polyline?
  {
    match e.points
    case Some(p) => p
    case None =>
      match e.vertices
      case Some(v) => v
      case None => []
  }

  /** The closure and drop rule for a polyline's vertex list: fewer than three
      points contribute nothing; otherwise the first point is appended when the
      list does not already end on it. */
  function ClosePolyline(pts: seq<Point>): (r: Option<Chain>)
    ensures r.None? <==> |pts| < 3
    ensures r.Some? ==> IsClosed(r.value)
    ensures r.Some? ==> |pts| <= |r.value| <= |pts| + 1 && r.value[..|pts|] == pts
    ensures r.Some? ==> (r.value == pts <==> IsClosed(pts))
  {
    if |pts| < 3 then None
    else if pts[0] != pts[|pts| - 1] then Some(pts + [pts[0]])
    else Some(pts)
  }

  /** Closing a list twice is the same as closing it once. */
  lemma ClosePolylineIdempotent(pts: seq<Point>)
    requires |pts| >= 3
    ensures ClosePolyline(ClosePolyline(pts).value) == ClosePolyline(pts)
  {
  }

  /** The shape every emitted line string has: a two-point line, or a closed
      ring of at least three points. */
  predicate WellFormedChain(c: Chain) {
    |c| == 2 || (|c| >= 3 && IsClosed(c))
  }

  /** The line string one entity contributes, if any. */
  function EntityChain(e: Entity): (r: Option<Chain>)
    ensures r.Some? <==> e.Line? || (e.Polyline? && |VertexList(e)| >= 3)
    ensures r.Some? ==> WellFormedChain(r.value)
    ensures e.Line? ==> r == Some([e.start, e.finish])
    ensures e.Polyline? ==> r == ClosePolyline(VertexList(e))
  {
    match e
    case Line(s, f) => Some([s, f])
    case Polyline(_, _) => ClosePolyline(VertexList(e))
    case Unsupported => None
  }

  /** The line strings of all entities, in entity order. */
  function ExtractChains(es: seq<Entity>): (r: seq<Chain>)
    ensures |r| <= |es|
    ensures r == [] <==> forall e :: e in es ==> EntityChain(e).None?
    ensures forall c :: c in r ==> WellFormedChain(c)
  {
    if es == [] then []
    else
      var rest := ExtractChains(es[1..]);
      assert forall e :: e in es <==> e == es[0] || e in es[1..];
      match EntityChain(es[0])
      case Some(c) => [c] + rest
      case None => rest
  }

  /** Extraction works entity by entity: it distributes over concatenation. */
  lemma {:induction false} ExtractChainsAppend(a: seq<Entity>, b: seq<Entity>)
    ensures ExtractChains(a + b) == ExtractChains(a) + ExtractChains(b)
  {
    if a == [] {
      assert a + b == b;
    } else {
      assert (a + b)[0] == a[0];
      assert (a + b)[1..] == a[1..] + b;
      ExtractChainsAppend(a[1..], b);
    }
  }

  /** A single entity yields exactly the line string it contributes, if any;
      with `ExtractChainsAppend` this fixes the content and entity order of
      every extraction. */
  lemma ExtractChainsSingleton(e: Entity)
    ensures ExtractChains([e]) == if EntityChain(e).Some? then [EntityChain(e).value] else []
  {
    assert [e][1..] == [];
  }

  /** The faces above the noise threshold, in their original order. */
  function FilterNoise(ps: seq<Polygon>): (r: seq<Polygon>)
    ensures |r| <= |ps|
    ensures forall p :: p in r ==> p.area > NoiseArea
    ensures forall p :: multiset(r)[p] == if p.area > NoiseArea then multiset(ps)[p] else 0
  {
    if ps == [] then []
    else
      var rest := FilterNoise(ps[1..]);
      assert forall p :: p in ps <==> p == ps[0] || p in ps[1..];
      assert ps == [ps[0]] + ps[1..];
      if ps[0].area > NoiseArea then [ps[0]] + rest else rest
  }

  /** The filter keeps relative order: filtering a concatenation is the
      concatenation of the filtered parts. */
  lemma {:induction false} FilterNoiseAppend(a: seq<Polygon>, b: seq<Polygon>)
    ensures FilterNoise(a + b) == FilterNoise(a) + FilterNoise(b)
  {
    if a == [] {
      assert a + b == b;
    } else {
      assert (a + b)[0] == a[0];
      assert (a + b)[1..] == a[1..] + b;
      FilterNoiseAppend(a[1..], b);
    }
  }

  /** The filter leaves a list unchanged exactly when every face in it is
      above the threshold. */
  lemma {:induction false} FilterNoiseKeepsAll(ps: seq<Polygon>)
    ensures FilterNoise(ps) == ps <==> forall p :: p in ps ==> p.area > NoiseArea
  {
    if ps != [] {
      assert forall p :: p in ps[1..] ==> p in ps;
      FilterNoiseKeepsAll(ps[1..]);
      if ps[0].area <= NoiseArea {
        assert |FilterNoise(ps)| <= |ps[1..]| < |ps|;
      }
    }
  }

  /** Filtering twice is filtering once. */
  lemma FilterNoiseIdempotent(ps: seq<Polygon>)
    ensures FilterNoise(FilterNoise(ps)) == FilterNoise(ps)
  {
    FilterNoiseKeepsAll(FilterNoise(ps));
  }

  /** The whole reader: entities to line strings; no line strings means no
      faces; otherwise the polygonizer's faces above the noise threshold. The
      polygonizer (noding the line strings and extracting their faces) is a
      parameter. */
  function ParseToPolygons(es: seq<Entity>, polygonize: seq<Chain> -> seq<Polygon>): (r: seq<Polygon>)
    ensures (forall e :: e in es ==> EntityChain(e).None?) ==> r == []
    ensures forall p :: p in r ==> p.area > NoiseArea && p in polygonize(ExtractChains(es))
    ensures ExtractChains(es) != [] ==>
              forall p :: p in polygonize(ExtractChains(es)) && p.area > NoiseArea ==> p in r
    ensures ExtractChains(es) != [] ==> r == FilterNoise(polygonize(ExtractChains(es)))
  {
    var chains := ExtractChains(es);
    if chains == [] then [] else FilterNoise(polygonize(chains))
  }
}
