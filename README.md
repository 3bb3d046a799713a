# Contour formatter of the X-ray cluster contour service

This project models the formatter in `contours.py` of the X-ray cluster
contour service. The service keeps precomputed temperature contours for
galaxy clusters and serves them as JSON.

A cluster record holds a sequence of temperature `levels` and, parallel to
it, a sequence of `curves`. `curves[i]` is the list of polygons extracted at
`levels[i]`, and a polygon is a list of (right ascension, declination)
vertices. The formatter does four things with a record:

- it counts the vertices of a curve (`count_points`);
- it finds the first level exactly equal to a requested one and returns that
  level's polygons (`get_index_by_level`, `read_contours_by_level`);
- it builds the colour scale, one `[value, rgba, hex]` entry per level
  (`generate_colorscale`);
- it assembles one response record per level, `{index, temperature,
  count_polygons, count_points, curves, color}`, next to the unchanged levels
  and the colour scale (`read_contours`).

All of it lives in `contours.dfy`, module `Contours`:

- A record is an already-loaded `ClusterRecord`.
- Levels, coordinates, normalised values and RGBA colours are abstract types.
  Only their equality is used.
- The three numeric collaborators of the colour scale are functions held in a
  `ColorModel`:
  - `normalize` stands for `get_colors` (log10, then min-max scaling over the
    whole level sequence);
  - `cmap` stands for the `jet` colour map;
  - `toHex` stands for the RGBA-to-hex conversion.
- The Python exceptions become a `Result`:
  - `LevelNotFound` is the empty match that makes `[0][0]` raise;
  - `CurvesMissing` is the `IndexError` raised when a level index has no curve
    in the record;
  - `NoLevels` is the `ValueError` that `min` raises inside `get_colors`
    (contours.py:34) when the record has no levels.
- `SumPoints` is the specification of vertex counting: the polygon lengths,
  summed from the front.
- `PolygonToList` and `CurveToLists` give the plain-list form of polygons
  (the `.tolist()` at contours.py:166): each vertex becomes `[ra, dec]`.

`read_contours` returns the levels in storage order. Sorting them is done by
the HTTP layer for a different route, `/temperatures` (api.py:35-36). It is
not done in the formatter, so the model's `temperatures` field is the stored
sequence unchanged.

## Model

| member | source | states |
|---|---|---|
| `Contours.CountPoints` | contours.py:27-30 | The accumulated count equals the sum of `len(polygon)` over the curve, adding polygons in order; 0 for an empty curve |
| `Contours.SumPointsAppend` | contours.py:28-29 | Adding one polygon to a curve adds exactly that polygon's length to the vertex count |
| `Contours.SumPointsConcat` | contours.py:27-30 | The vertex count of two curves joined is the sum of their counts |
| `Contours.SumPointsBoundsPolygon` | contours.py:28-29 | No single polygon has more vertices than the whole curve's count |
| `Contours.PolygonToList` | contours.py:166 | The list form of a polygon has one entry per vertex |
| `Contours.CurveToLists` | contours.py:166 | The list form of a curve has one entry per polygon |
| `Contours.PolygonToListInjective` | contours.py:166 | Two polygons with the same list form are equal: the conversion keeps every vertex in order |
| `Contours.CurveToListsInjective` | contours.py:166 | Two curves with the same list form are equal: the polygons and their order are kept |
| `Contours.IndexOfLevel` | contours.py:9-10 | On success, the result is the smallest index whose level equals the requested one, so earlier duplicates win. It fails with `LevelNotFound` exactly when no stored level is equal, with no tolerance |
| `Contours.ReadContoursByLevel` | contours.py:99-107 | Fails with `LevelNotFound` when no level is equal. Otherwise it returns exactly `curves[k]` for the first matching index `k`, or `CurvesMissing` when the record has no curve at `k` |
| `Contours.GenerateColorscale` | contours.py:60-75 | Fails with `NoLevels` exactly when there are no levels, since the normalisation then has no minimum. Otherwise, exactly one entry per level, in level order. Entry `i` is `[v, cmap(v), to_hex(cmap(v))]` with `v` the `i`-th normalised value, and the levels are normalised once for all entries |
| `Contours.ColorScaleUnique` | contours.py:61-75 | The colour scale is determined by the levels and the colour functions alone |
| `Contours.ReadContours` | contours.py:145-196 | Fails exactly when there are no levels (`NoLevels`, raised while building the colour scale) or fewer curves than levels (`CurvesMissing`). Otherwise: `temperatures` is the levels unchanged, and `colorscales` is the colour scale of those levels. There is one record per level, and record `i` has `index == i`, `temperature == levels[i]`, `count_polygons == len(curves[i])`, `count_points` equal to the vertex sum of `curves[i]`, `curves` the list form of `curves[i]`, and `color` the hex of colour-scale entry `i` |
| `Contours.ByLevelAgreesWithContours` | contours.py:156-188 | For any level found by the single-level lookup, the full response's record at the first matching index has that temperature and carries the same polygons in list form, with the same polygon and vertex counts |

## Left out

- Loading the store (`read_pickle`, contours.py:77-86) and `read_temperatures` (contours.py:89-97) are file I/O and deserialisation. The record is passed in already loaded, and `read_temperatures` is then only the `levels` field. The surrounding `try`/`except`/`raise e` blocks re-raise unchanged, so they have no counterpart.
- The request level arrives as text, and `float(level)` parses it (contours.py:10). The model takes the parsed level, so a parse failure is not modelled.
- `get_colors` (contours.py:32-35) is floating-point arithmetic (log10, then min-max scaling). It is the abstract `normalize`. The division by zero when all levels are equal is therefore not modelled, and neither are the min-max scaling facts (the smallest logged level maps to 0, the largest to 1).
- The `jet` colour map and `to_hex` (contours.py:60, 67, 70) are library calls. They are the abstract `cmap` and `toHex`.
- GenerateColorscale: requires `normalize` to return one value per level whenever there is at least one level. For a non-empty record, `np.log10` and the element-wise scaling in `get_colors` keep the length. An empty record never reaches `normalize`: it fails with `NoLevels`, as `get_colors` raises there.
- Level equality is the abstract type's equality, which is reflexive, so a NaN level, which equals nothing under IEEE 754, is not modelled.
- `plot_cbar` (contours.py:37-43) is plotting, and the commented-out code (contours.py:203-231) is not part of the program.
- The HTTP layer in api.py is not part of this model: routing, required-parameter checks, `jsonify`, the sort of the temperature list and logging.
