/**
 One run of the cross-section page, from the uploaded raster and the four text
 fields to the sampled profile and the polyline offered for download. Every
 stage either hands its result to the next or stops the run with the messages
 the page shows.

 The foreign collaborators are parameters: `parse` is Python's `float()` on a
 string, an uploaded raster carries its `rowcol` (rasterio's inverse affine map; the
 model lets it return any pair of reals, although rasterio floors by default and so
 hands back integers), and `line` is scikit-image's `skimage.draw.line`, giving the
 pixel path between two pixels.
 */
module CrossSection {
  import opened Wrappers
  import opened InputGate
  import opened Pixels
  import opened Profile

  /** What rasterio makes of the uploaded file: a first band and its geographic-to-pixel
      map, or an error it raises while opening or reading it. */
  datatype Upload =
    | Readable(grid: Grid, rowcol: (real, real) -> (real, real))
    | Unreadable(reason: string)

  /** Everything the page holds when the script runs: the upload, if any, and the four fields. */
  datatype Request = Request(upload: Option<Upload>, inputs: Inputs)

  /** Why a processing step inside the `try` block raised. */
  datatype Cause =
    | RasterUnreadable(reason: string)
    | IndexOutOfBounds(at: Pixel)

  /** The messages that end a run. */
  datatype Message =
    | UploadMissing                  // info: "Please upload a TIFF file."
    | InputsMissing                  // info: "Please provide all coordinate inputs."
    | NotNumeric(field: Field)       // error: "<field> must be a numeric value"
    | DigitMismatch                  // error: integer parts differ in digit count
    | ProcessingFailed(cause: Cause) // error: "Error processing TIFF file: ..."

  /** What a successful run shows and offers for download. */
  datatype Report = Report(
    lengthSquared: real,        // square of the straight-line length between the two points
    start: Pixel,
    end: Pixel,
    path: seq<Pixel>,
    profile: seq<real>,
    points: seq<(int, real)>)

  /** The square of the section length `sqrt((x1 - x0)**2 + (y1 - y0)**2)`; the square root
      is floating-point work outside this model. */
  function LengthSquared(c: Coords): (d: real)
    ensures d >= 0.0
  {
    var dx := c.endX - c.startX;
    var dy := c.endY - c.startY;
    dx * dx + dy * dy
  }

  /** The section length does not depend on which point is the start. */
  lemma LengthSquaredSymmetric(c: Coords)
    ensures LengthSquared(c) == LengthSquared(Coords(c.endX, c.endY, c.startX, c.startY))
  {
  }

  /** The section from (0, 0) to (3, 4) is 5 long, so its square is 25. */
  lemma LengthSquaredExample()
    ensures LengthSquared(Coords(0.0, 0.0, 3.0, 4.0)) == 25.0
  {
  }

  /** The entry condition, the per-field parse and the digit-count comparison, in that order. */
  function Validate(uploaded: bool, inp: Inputs, parse: string -> Option<real>): (r: Result<Coords, seq<Message>>)
    ensures r.Success? <==>
      && uploaded
      && AllProvided(inp)
      && ParseCoordinates(parse, inp).Success?
      && DigitsAgree(ParseCoordinates(parse, inp).value)
    ensures r.Success? ==> forall f :: parse(Raw(inp, f)) == Some(Value(r.value, f))
  {
    if !uploaded || !AllProvided(inp) then
      Failure((if uploaded then [] else [UploadMissing]) + (if AllProvided(inp) then [] else [InputsMissing]))
    else
      match ParseCoordinates(parse, inp)
      case Failure(fields) => Failure(seq(|fields|, i requires 0 <= i < |fields| => NotNumeric(fields[i])))
      case Success(c) =>
        if DigitsAgree(c) then Success(c) else Failure([DigitMismatch])
  }

  /** The body of the `try` block: map both points to pixels, draw the line between them,
      sample the grid along it and build the export polyline. */
  function Process(upload: Upload, c: Coords, line: (Pixel, Pixel) -> seq<Pixel>): (r: Result<Report, seq<Message>>)
    ensures upload.Unreadable? ==> r == Failure([ProcessingFailed(RasterUnreadable(upload.reason))])
    ensures r.Success? ==>
      && upload.Readable?
      && r.value.start == ToPixel(upload.rowcol(c.startX, c.startY))
      && r.value.end == ToPixel(upload.rowcol(c.endX, c.endY))
      && r.value.path == line(r.value.start, r.value.end)
      && |r.value.profile| == |r.value.path| == |r.value.points|
      && (forall i :: 0 <= i < |r.value.path| ==> Cell(upload.grid, r.value.path[i]) == Some(r.value.profile[i]))
      && (forall i :: 0 <= i < |r.value.points| ==> r.value.points[i] == (i, r.value.profile[i]))
  {
    match upload
    case Unreadable(reason) => Failure([ProcessingFailed(RasterUnreadable(reason))])
    case Readable(grid, rowcol) =>
      var start := ToPixel(rowcol(c.startX, c.startY));
      var end := ToPixel(rowcol(c.endX, c.endY));
      var path := line(start, end);
      match Sample(grid, path)
      case Failure(p) => Failure([ProcessingFailed(IndexOutOfBounds(p))])
      case Success(profile) =>
        Success(Report(LengthSquared(c), start, end, path, profile, ExportPoints(profile)))
  }

  /** One execution of the page script. */
  function Run(req: Request, parse: string -> Option<real>, line: (Pixel, Pixel) -> seq<Pixel>): (r: Result<Report, seq<Message>>)
    ensures r.Success? ==> req.upload.Some? && AllProvided(req.inputs)
    ensures r.Success? ==> |r.value.profile| == |r.value.path| == |r.value.points|
  {
    match Validate(req.upload.Some?, req.inputs, parse)
    case Failure(msgs) => Failure(msgs)
    case Success(c) => Process(req.upload.value, c, line)
  }

  // ---- Properties of a run ----

  /** Without an upload or with an empty field the run stops at once, with one notice per
      missing kind of input and nothing else. */
  lemma MissingInputsStopRun(req: Request, parse: string -> Option<real>, line: (Pixel, Pixel) -> seq<Pixel>)
    requires req.upload.None? || exists f :: Raw(req.inputs, f) == ""
    ensures Run(req, parse, line).Failure?
    ensures var msgs := Run(req, parse, line).error;
      && (UploadMissing in msgs <==> req.upload.None?)
      && (InputsMissing in msgs <==> exists f :: Raw(req.inputs, f) == "")
      && forall m :: m in msgs ==> m == UploadMissing || m == InputsMissing
  {
  }

  /** When every field is present, every field that does not parse is reported, each by
      name and in field order, and nothing else is reported. */
  lemma UnparsableFieldsReported(req: Request, parse: string -> Option<real>, line: (Pixel, Pixel) -> seq<Pixel>)
    requires req.upload.Some? && AllProvided(req.inputs)
    requires exists f :: parse(Raw(req.inputs, f)).None?
    ensures Run(req, parse, line).Failure?
    ensures var msgs := Run(req, parse, line).error;
      && (forall f :: NotNumeric(f) in msgs <==> parse(Raw(req.inputs, f)).None?)
      && (forall m :: m in msgs ==> m.NotNumeric?)
      && (forall i, j :: 0 <= i < j < |msgs| ==> Rank(msgs[i].field) < Rank(msgs[j].field))
  {
    var fields := ParseCoordinates(parse, req.inputs).error;
    var msgs := Run(req, parse, line).error;
    assert msgs == seq(|fields|, i requires 0 <= i < |fields| => NotNumeric(fields[i]));
    forall f
      ensures NotNumeric(f) in msgs <==> f in fields
    {
      if f in fields {
        var i :| 0 <= i < |fields| && fields[i] == f;
        assert msgs[i] == NotNumeric(f);
      }
    }
  }

  /** Once all four values parse, the run is refused with the digit-count message exactly
      when the integer parts do not all have the same number of digits. */
  lemma DigitGate(req: Request, parse: string -> Option<real>, line: (Pixel, Pixel) -> seq<Pixel>)
    requires req.upload.Some? && AllProvided(req.inputs)
    requires ParseCoordinates(parse, req.inputs).Success?
    ensures Run(req, parse, line) == Failure([DigitMismatch])
      <==> !DigitsAgree(ParseCoordinates(parse, req.inputs).value)
  {
  }

  /** A run refused by the gate never looks at the raster: its outcome is the same for any
      uploaded file. */
  lemma RefusalIgnoresRaster(
    req1: Request, req2: Request, parse: string -> Option<real>, line: (Pixel, Pixel) -> seq<Pixel>)
    requires req1.inputs == req2.inputs && req1.upload.Some? == req2.upload.Some?
    requires Validate(req1.upload.Some?, req1.inputs, parse).Failure?
    ensures Run(req1, parse, line) == Run(req2, parse, line)
    ensures Run(req1, parse, line).Failure?
    ensures forall m :: m in Run(req1, parse, line).error ==> !m.ProcessingFailed?
  {
  }

  /** A successful run passed every gate, and its report is the pipeline applied to the
      parsed coordinates: both endpoints rounded from `rowcol`, the drawn line between
      them, one elevation per path pixel in path order, and the enumerated polyline. */
  lemma SuccessfulRun(req: Request, parse: string -> Option<real>, line: (Pixel, Pixel) -> seq<Pixel>)
    requires Run(req, parse, line).Success?
    ensures var c := ParseCoordinates(parse, req.inputs);
      && c.Success? && DigitsAgree(c.value)
      && req.upload.Some? && req.upload.value.Readable?
      && var rep := Run(req, parse, line).value;
      && var up := req.upload.value;
      && rep.start == ToPixel(up.rowcol(c.value.startX, c.value.startY))
      && rep.end == ToPixel(up.rowcol(c.value.endX, c.value.endY))
      && rep.path == line(rep.start, rep.end)
      && rep.lengthSquared == LengthSquared(c.value)
      && Sample(up.grid, rep.path) == Success(rep.profile)
      && rep.points == ExportPoints(rep.profile)
  {
  }

  /** After the gate, a readable raster gives a report exactly when every pixel of the drawn
      line can be indexed; otherwise the run fails naming the first pixel that cannot, and
      no profile or polyline is produced. */
  lemma SampledOrFailed(req: Request, parse: string -> Option<real>, line: (Pixel, Pixel) -> seq<Pixel>)
    requires Validate(req.upload.Some?, req.inputs, parse).Success?
    requires req.upload.value.Readable?
    ensures var c := Validate(req.upload.Some?, req.inputs, parse).value;
      var up := req.upload.value;
      var path := line(ToPixel(up.rowcol(c.startX, c.startY)), ToPixel(up.rowcol(c.endX, c.endY)));
      && (Run(req, parse, line).Success? <==> forall i :: 0 <= i < |path| ==> Cell(up.grid, path[i]).Some?)
      && (Run(req, parse, line).Failure? ==>
            exists k :: 0 <= k < |path|
              && Run(req, parse, line) == Failure([ProcessingFailed(IndexOutOfBounds(path[k]))])
              && Cell(up.grid, path[k]).None?
              && forall j :: 0 <= j < k ==> Cell(up.grid, path[j]).Some?)
  {
  }

  /** scikit-image's `line(r0, c0, r1, c1)` is taken to return a path that starts at the
      first pixel and ends at the second. This is an assumption about foreign code, used only
      as a hypothesis below. */
  predicate Joins(path: seq<Pixel>, p0: Pixel, p1: Pixel) {
    |path| >= 1 && path[0] == p0 && path[|path| - 1] == p1
  }

  /** Assuming the line joins its endpoints: a successful profile starts with the start
      pixel's elevation and ends with the end pixel's, and a start or end point whose pixel
      lies outside the raster (after NumPy's wrap-around) fails the whole run. */
  lemma EndpointsSampled(req: Request, parse: string -> Option<real>, line: (Pixel, Pixel) -> seq<Pixel>)
    requires Validate(req.upload.Some?, req.inputs, parse).Success?
    requires req.upload.value.Readable?
    requires var c := Validate(req.upload.Some?, req.inputs, parse).value;
      var up := req.upload.value;
      var p0 := ToPixel(up.rowcol(c.startX, c.startY));
      var p1 := ToPixel(up.rowcol(c.endX, c.endY));
      Joins(line(p0, p1), p0, p1)
    ensures var c := Validate(req.upload.Some?, req.inputs, parse).value;
      var up := req.upload.value;
      var p0 := ToPixel(up.rowcol(c.startX, c.startY));
      var p1 := ToPixel(up.rowcol(c.endX, c.endY));
      var r := Run(req, parse, line);
      && (r.Success? ==>
            (&& |r.value.profile| >= 1
             && Cell(up.grid, p0) == Some(r.value.profile[0])
             && Cell(up.grid, p1) == Some(r.value.profile[|r.value.profile| - 1])))
      && (Cell(up.grid, p0).None? || Cell(up.grid, p1).None? ==> r.Failure?)
  {
  }
}
