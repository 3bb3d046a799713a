/**
  The contour formatter of an X-ray cluster contour service.

  A cluster record holds a sequence of temperature levels and, parallel to
  it, one curve per level; a curve is a sequence of polygons and a polygon a
  sequence of (right ascension, declination) vertices. The formatter counts
  vertices, looks a level up by exact equality, builds the colour scale and
  assembles the per-level response records.

  Floating-point values are abstract: a level is only ever compared for
  equality, and the normalisation of the levels, the colour map and the hex
  conversion are supplied as functions in a `ColorModel`.
 */
module Contours {

  /** A temperature level as stored in a cluster record; only equality is used. */
  type Level(==)

  /** One vertex coordinate, in degrees. */
  type Coord(==)

  /** A level's position on the colour scale, as produced by the normalisation. */
  type Norm(==)

  /** An RGBA colour as returned by the colour map. */
  type Rgba(==)

  datatype Point = Point(ra: Coord, dec: Coord)

  type Polygon = seq<Point>

  /** All polygons extracted at one level. */
  type Curve = seq<Polygon>

  /** One cluster of the store, already loaded: `curves[i]` belongs to `levels[i]`. */
  datatype ClusterRecord = ClusterRecord(levels: seq<Level>, curves: seq<Curve>)

  /**
    LevelNotFound: no stored level equals the requested one.
    CurvesMissing: a level index has no curve in the record.
    NoLevels: the record has no levels, so the normalisation has no minimum
    or maximum to scale by.
   */
  datatype Error = LevelNotFound | CurvesMissing | NoLevels

  datatype Result<T> = Success(value: T) | Failure(error: Error)

  /**
    The numeric collaborators of the colour scale: `normalize` maps the whole
    level sequence to positions on the scale (log10, then min-max scaling),
    `cmap` is the colour map and `toHex` the RGBA-to-hex conversion.
    On an empty level sequence the normalisation fails; that case is handled
    before `normalize` is consulted, so its value there is never used.
   */
  datatype ColorModel = ColorModel(
    normalize: seq<Level> -> seq<Norm>,
    cmap: Norm -> Rgba,
    toHex: Rgba -> string)
  {
    /** The colour-scale entry of one normalised value. */
    function EntryFor(v: Norm): ColorScaleEntry
    {
      var rgba := cmap(v);
      ColorScaleEntry(v, rgba, toHex(rgba))
    }
  }

  /** `[value, rgba, hex]` of one level. */
  datatype ColorScaleEntry = ColorScaleEntry(value: Norm, rgba: Rgba, hex: string)

  /** The response record of one level; `curves` is the list form of its polygons. */
  datatype ContourEntry = ContourEntry(
    index: nat,
    temperature: Level,
    countPolygons: nat,
    countPoints: nat,
    curves: seq<seq<seq<Coord>>>,
    color: string)

  datatype ContoursResponse = ContoursResponse(
    temperatures: seq<Level>,
    contours: seq<ContourEntry>,
    colorscales: seq<ColorScaleEntry>)

  // ---------------------------------------------------------------------
  // Point counting

  /** The number of vertices of a curve: the lengths of its polygons, summed. */
  function SumPoints(curve: Curve): nat
  {
    if curve == [] then 0 else |curve[0]| + SumPoints(curve[1..])
  }

  /** Adding a polygon to a curve adds exactly that polygon's vertex count. */
  lemma {:induction false} SumPointsAppend(curve: Curve, polygon: Polygon)
    ensures SumPoints(curve + [polygon]) == SumPoints(curve) + |polygon|
  {
    if curve == [] {
      assert curve + [polygon] == [polygon];
    } else {
      assert (curve + [polygon])[1..] == curve[1..] + [polygon];
      SumPointsAppend(curve[1..], polygon);
    }
  }

  /** The vertex count of a curve split in two is the sum of the two parts' counts. */
  lemma {:induction false} SumPointsConcat(a: Curve, b: Curve)
    ensures SumPoints(a + b) == SumPoints(a) + SumPoints(b)
  {
    if a == [] {
      assert a + b == b;
    } else {
      assert (a + b)[1..] == a[1..] + b;
      SumPointsConcat(a[1..], b);
    }
  }

  /** Every single polygon's vertices are among the curve's vertices. */
  lemma {:induction false} SumPointsBoundsPolygon(curve: Curve, i: nat)
    requires i < |curve|
    ensures |curve[i]| <= SumPoints(curve)
  {
    if i > 0 {
      SumPointsBoundsPolygon(curve[1..], i - 1);
    }
  }

  /** Counts the vertices of a curve polygon by polygon, accumulating as it goes. */
  method CountPoints(curve: Curve) returns (count: nat)
    ensures count == SumPoints(curve)
  {
    count := 0;
    for i := 0 to |curve|
      invariant count == SumPoints(curve[..i])
    {
      assert curve[..i + 1] == curve[..i] + [curve[i]];
      SumPointsAppend(curve[..i], curve[i]);
      count := count + |curve[i]|;
    }
    assert curve[..|curve|] == curve;
  }

  // ---------------------------------------------------------------------
  // Conversion of polygons to plain lists

  /** A polygon as a list of `[ra, dec]` pairs. */
  function PolygonToList(polygon: Polygon): (r: seq<seq<Coord>>)
    ensures |r| == |polygon|
  {
    seq(|polygon|, i requires 0 <= i < |polygon| => [polygon[i].ra, polygon[i].dec])
  }

  /** A curve as a list of polygons in list form, polygon by polygon in order. */
  function CurveToLists(curve: Curve): (r: seq<seq<seq<Coord>>>)
    ensures |r| == |curve|
  {
    seq(|curve|, i requires 0 <= i < |curve| => PolygonToList(curve[i]))
  }

  /** The list form keeps every vertex: distinct polygons have distinct list forms. */
  lemma PolygonToListInjective(a: Polygon, b: Polygon)
    requires PolygonToList(a) == PolygonToList(b)
    ensures a == b
  {
    forall j | 0 <= j < |a|
      ensures a[j] == b[j]
    {
      assert PolygonToList(a)[j] == [a[j].ra, a[j].dec];
      assert PolygonToList(b)[j] == [b[j].ra, b[j].dec];
    }
  }

  /** The list form of a curve is lossless: it determines the polygons and their order. */
  lemma CurveToListsInjective(a: Curve, b: Curve)
    requires CurveToLists(a) == CurveToLists(b)
    ensures a == b
  {
    forall i | 0 <= i < |a|
      ensures a[i] == b[i]
    {
      assert CurveToLists(a)[i] == PolygonToList(a[i]);
      assert CurveToLists(b)[i] == PolygonToList(b[i]);
      PolygonToListInjective(a[i], b[i]);
    }
  }

  // ---------------------------------------------------------------------
  // Exact-match level lookup

  /** `k` is the first index at which `levels` holds `level`. */
  predicate IsFirstMatch(levels: seq<Level>, level: Level, k: nat)
  {
    k < |levels| && levels[k] == level && forall j :: 0 <= j < k ==> levels[j] != level
  }

  /**
    The index of the first stored level equal to `level`; earlier duplicates
    win, and there is no tolerance.
   */
  function IndexOfLevel(levels: seq<Level>, level: Level): (r: Result<nat>)
    ensures r.Success? ==> IsFirstMatch(levels, level, r.value)
    ensures r.Failure? ==> r.error == LevelNotFound && level !in levels
  {
    if levels == [] then Failure(LevelNotFound)
    else if levels[0] == level then Success(0)
    else match IndexOfLevel(levels[1..], level)
      case Success(k) => Success(k + 1)
      case Failure(e) => Failure(e)
  }

  /** The polygons stored for the first level equal to `level`. */
  function ReadContoursByLevel(rec: ClusterRecord, level: Level): (r: Result<Curve>)
    ensures level !in rec.levels ==> r == Failure(LevelNotFound)
    ensures forall k: nat {:trigger IsFirstMatch(rec.levels, level, k)} :: IsFirstMatch(rec.levels, level, k) ==>
      r == if k < |rec.curves| then Success(rec.curves[k]) else Failure(CurvesMissing)
  {
    match IndexOfLevel(rec.levels, level)
    case Failure(e) => Failure(e)
    case Success(k) =>
      if k < |rec.curves| then Success(rec.curves[k]) else Failure(CurvesMissing)
  }

  // ---------------------------------------------------------------------
  // Colour scale

  /** The normalisation gives one value per level whenever there are levels to scale. */
  predicate NormalizesEach(model: ColorModel, levels: seq<Level>)
  {
    levels != [] ==> |model.normalize(levels)| == |levels|
  }

  /**
    `colorscale` has one entry per level, in level order, and entry `i` is
    built from the `i`-th normalised value alone.
   */
  predicate IsColorScale(colorscale: seq<ColorScaleEntry>, levels: seq<Level>, model: ColorModel)
    requires |model.normalize(levels)| == |levels|
  {
    && |colorscale| == |levels|
    && forall i :: 0 <= i < |colorscale| ==> colorscale[i] == model.EntryFor(model.normalize(levels)[i])
  }

  /**
    Builds the colour scale entry by entry, normalising all levels once up
    front; with no levels the normalisation has no minimum and fails.
   */
  method GenerateColorscale(levels: seq<Level>, model: ColorModel) returns (r: Result<seq<ColorScaleEntry>>)
    requires NormalizesEach(model, levels)
    ensures r.Failure? <==> levels == []
    ensures r.Failure? ==> r.error == NoLevels
    ensures r.Success? ==> IsColorScale(r.value, levels, model)
  {
    if levels == [] {
      return Failure(NoLevels);
    }
    var colors := model.normalize(levels);
    var colorscale := [];
    for idx := 0 to |levels|
      invariant |colorscale| == idx
      invariant forall i :: 0 <= i < idx ==> colorscale[i] == model.EntryFor(colors[i])
    {
      var rgbaColor := model.cmap(colors[idx]);
      var hexColor := model.toHex(rgbaColor);
      colorscale := colorscale + [ColorScaleEntry(colors[idx], rgbaColor, hexColor)];
    }
    r := Success(colorscale);
  }

  /** The colour scale of a level sequence is fully determined by it. */
  lemma ColorScaleUnique(levels: seq<Level>, model: ColorModel, a: seq<ColorScaleEntry>, b: seq<ColorScaleEntry>)
    requires |model.normalize(levels)| == |levels|
    requires IsColorScale(a, levels, model) && IsColorScale(b, levels, model)
    ensures a == b
  {
  }

  // ---------------------------------------------------------------------
  // Response assembly

  /** `e` is the response record of level `i` of `rec`, coloured by `colorscale`. */
  predicate DescribesLevel(e: ContourEntry, rec: ClusterRecord, colorscale: seq<ColorScaleEntry>, i: nat)
    requires i < |rec.levels| && i < |rec.curves| && i < |colorscale|
  {
    && e.index == i
    && e.temperature == rec.levels[i]
    && e.countPolygons == |rec.curves[i]|
    && e.countPoints == SumPoints(rec.curves[i])
    && e.curves == CurveToLists(rec.curves[i])
    && e.color == colorscale[i].hex
  }

  /**
    `resp` is the full response for `rec`: the levels unchanged, the colour
    scale of those levels, and one record per level, in level order, each
    coloured by the colour-scale entry at its own index.
   */
  predicate IsContoursResponse(resp: ContoursResponse, rec: ClusterRecord, model: ColorModel)
    requires NormalizesEach(model, rec.levels)
  {
    && rec.levels != []
    && |rec.levels| <= |rec.curves|
    && resp.temperatures == rec.levels
    && IsColorScale(resp.colorscales, rec.levels, model)
    && |resp.contours| == |rec.levels|
    && forall i :: 0 <= i < |resp.contours| ==> DescribesLevel(resp.contours[i], rec, resp.colorscales, i)
  }

  /** Builds the response for a whole cluster record, level by level. */
  method ReadContours(rec: ClusterRecord, model: ColorModel) returns (r: Result<ContoursResponse>)
    requires NormalizesEach(model, rec.levels)
    ensures r.Failure? <==> rec.levels == [] || |rec.curves| < |rec.levels|
    ensures r.Failure? ==> r.error == if rec.levels == [] then NoLevels else CurvesMissing
    ensures r.Success? ==> IsContoursResponse(r.value, rec, model)
  {
    var allLevels := rec.levels;
    var scale := GenerateColorscale(allLevels, model);
    if scale.Failure? {
      return Failure(scale.error);
    }
    var colorscale := scale.value;
    var contours: seq<ContourEntry> := [];
    for idx := 0 to |allLevels|
      invariant |contours| == idx
      invariant idx <= |rec.curves|
      invariant forall i :: 0 <= i < idx ==> DescribesLevel(contours[i], rec, colorscale, i)
    {
      if idx >= |rec.curves| {
        return Failure(CurvesMissing);
      }
      var temperature := allLevels[idx];
      var curvesByLevel := rec.curves[idx];
      var curveList := CurveToLists(curvesByLevel);
      var hexColor := colorscale[idx].hex;
      var countPoints := CountPoints(curvesByLevel);
      var entry := ContourEntry(idx, temperature, |curvesByLevel|, countPoints, curveList, hexColor);
      contours := contours + [entry];
    }
    r := Success(ContoursResponse(allLevels, contours, colorscale));
  }

  /**
    The single-level lookup and the full response agree: the record of the
    first level equal to `level` carries exactly the polygons the lookup
    returns, with their counts.
   */
  lemma ByLevelAgreesWithContours(rec: ClusterRecord, model: ColorModel, resp: ContoursResponse, level: Level, curve: Curve)
    requires NormalizesEach(model, rec.levels)
    requires IsContoursResponse(resp, rec, model)
    requires ReadContoursByLevel(rec, level) == Success(curve)
    ensures IndexOfLevel(rec.levels, level).Success?
    ensures var k := IndexOfLevel(rec.levels, level).value;
      && k < |resp.contours|
      && resp.contours[k].temperature == level
      && resp.contours[k].countPolygons == |curve|
      && resp.contours[k].countPoints == SumPoints(curve)
      && resp.contours[k].curves == CurveToLists(curve)
  {
  }
}
