/**
 Sampling the elevation grid along a pixel path (`extract_cross_section`) and
 turning the sampled profile into the points of the exported polyline.
 */
module Profile {
  import opened Wrappers
  import opened Pixels

  /** The first band of the raster, row by row. It is a two-dimensional NumPy array, so
      every row has the same length. */
  type Grid = g: seq<seq<real>> | forall r :: 0 <= r < |g| ==> |g[r]| == |g[0]|

  /** The raster's width, NumPy's `shape[1]` (zero for an empty grid). */
  function Width(g: Grid): nat {
    if |g| == 0 then 0 else |g[0]|
  }

  /** NumPy's rule for one index into an axis of length `n`: an index in [-n, -1] counts
      from the end, and anything outside [-n, n) raises `IndexError` (here `None`). */
  function PyIndex(i: int, n: nat): (r: Option<nat>)
    ensures r.Some? <==> -(n as int) <= i < n
    ensures r.Some? ==> r.value < n && r.value == i % n
  {
    if 0 <= i < n then Some(i)
    else if -(n as int) <= i < 0 then Some(n + i)
    else None
  }

  /** `dem_data[row, col]` for one pixel, under NumPy's indexing rule on both axes. */
  function Cell(g: Grid, p: Pixel): (r: Option<real>)
    ensures r.Some? <==> -|g| <= p.row < |g| && -(Width(g) as int) <= p.col < Width(g)
    ensures r.Some? ==> r.value == g[p.row % |g|][p.col % Width(g)]
  {
    match PyIndex(p.row, |g|)
    case None => None
    case Some(r) =>
      match PyIndex(p.col, Width(g))
      case None => None
      case Some(c) => Some(g[r][c])
  }

  /** `dem_data[rr, cc]` for a whole path: one elevation per path pixel, in path order, or,
      when some pixel cannot be indexed, the first such pixel (the request then fails as a whole). */
  function Sample(g: Grid, path: seq<Pixel>): (r: Result<seq<real>, Pixel>)
    ensures r.Success? <==> forall i :: 0 <= i < |path| ==> Cell(g, path[i]).Some?
    ensures r.Success? ==> |r.value| == |path|
    ensures r.Success? ==> forall i :: 0 <= i < |path| ==> Cell(g, path[i]) == Some(r.value[i])
    ensures r.Failure? ==>
      exists k :: 0 <= k < |path| && path[k] == r.error && Cell(g, path[k]).None?
        && forall j :: 0 <= j < k ==> Cell(g, path[j]).Some?
    decreases |path|
  {
    if path == [] then Success([])
    else
      match Cell(g, path[0])
      case None => Failure(path[0])
      case Some(v) =>
        match Sample(g, path[1..])
        case Failure(p) => Failure(p)
        case Success(rest) => Success([v] + rest)
  }

  /** Python's `enumerate(values, start)`: each value paired with its running index. */
  function EnumerateFrom(values: seq<real>, start: int): (r: seq<(int, real)>)
    ensures |r| == |values|
    ensures forall i :: 0 <= i < |values| ==> r[i] == (start + i, values[i])
    decreases |values|
  {
    if values == [] then [] else [(start, values[0])] + EnumerateFrom(values[1..], start + 1)
  }

  /** The polyline handed to the drawing exporter: `[(i, e) for i, e in enumerate(profile)]`. */
  function ExportPoints(profile: seq<real>): (points: seq<(int, real)>)
    ensures |points| == |profile|
    ensures forall i :: 0 <= i < |profile| ==> points[i] == (i, profile[i])
  {
    EnumerateFrom(profile, 0)
  }

  /** The elevations (y-coordinates) of a polyline. */
  function Elevations(points: seq<(int, real)>): (ys: seq<real>)
    ensures |ys| == |points|
    ensures forall i :: 0 <= i < |points| ==> ys[i] == points[i].1
  {
    if points == [] then [] else [points[0].1] + Elevations(points[1..])
  }

  /** The export loses nothing: its y-coordinates are the profile, and its x-coordinates
      run 0, 1, ..., n-1 with no gap or repeat. */
  lemma ExportPointsRoundTrip(profile: seq<real>)
    ensures Elevations(ExportPoints(profile)) == profile
    ensures forall i, j :: 0 <= i < j < |profile| ==> ExportPoints(profile)[i].0 < ExportPoints(profile)[j].0
    ensures |profile| > 0 ==>
      (ExportPoints(profile)[0].0 == 0 && ExportPoints(profile)[|profile| - 1].0 == |profile| - 1)
  {
  }

  /** The wrap-around of negative indices: pixel row -1 reads the last row, so a point just
      above the raster is sampled from its bottom edge instead of failing. */
  lemma NegativeIndexWraps(g: Grid, p: Pixel)
    requires |g| > 0 && -|g| <= p.row < 0
    requires 0 <= p.col < Width(g)
    ensures Cell(g, p) == Some(g[|g| + p.row][p.col])
  {
  }

  /** A path that leaves the raster on either axis fails rather than being clipped. */
  lemma OutOfRangeFails(g: Grid, path: seq<Pixel>, k: nat)
    requires k < |path|
    requires || path[k].row >= |g| || path[k].row < -|g|
             || path[k].col >= Width(g) || path[k].col < -(Width(g) as int)
    ensures Sample(g, path).Failure?
  {
  }

  /** Sampling a flat raster gives a flat profile of the path's length. */
  lemma {:induction false} FlatGridProfile(g: Grid, path: seq<Pixel>, h: real)
    requires forall r, c :: 0 <= r < |g| && 0 <= c < |g[r]| ==> g[r][c] == h
    requires forall i :: 0 <= i < |path| ==> Cell(g, path[i]).Some?
    ensures Sample(g, path) == Success(seq(|path|, _ => h))
  {
    var r := Sample(g, path);
    assert r.Success?;
    forall i | 0 <= i < |path|
      ensures r.value[i] == h
    {
      var p := path[i];
      assert Cell(g, p) == Some(r.value[i]);
      assert r.value[i] == g[p.row % |g|][p.col % |g[p.row % |g|]|];
    }
    assert r.value == seq(|path|, _ => h);
  }

  /** A 10 x 10 raster of constant elevation 100.0, sampled along row 0 from column 0 to
      column 9, gives ten samples of 100.0 and the polyline (0, 100.0) ... (9, 100.0). */
  lemma FlatRasterScenario()
    ensures var g := seq(10, _ => seq(10, _ => 100.0));
            var path := seq(10, j => Pixel(0, j));
            && Sample(g, path) == Success(seq(10, _ => 100.0))
            && ExportPoints(seq(10, _ => 100.0)) == seq(10, i => (i, 100.0))
  {
    var g := seq(10, _ => seq(10, _ => 100.0));
    var path := seq(10, j => Pixel(0, j));
    forall i | 0 <= i < |path|
      ensures Cell(g, path[i]).Some?
    {
      assert PyIndex(path[i].col, 10) == Some(i);
    }
    FlatGridProfile(g, path, 100.0);
  }
}
