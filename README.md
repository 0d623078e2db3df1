# Radar chart layout model

A Dafny model of `Radarchart` from g.Raphaël's `g.radar.js`. This is the
constructor behind `paper.radarchart(cx, cy, r, values, opts)`. It does the
following, in order:

- merges the caller's options over built-in defaults;
- sums the values;
- draws a centre dot and the concentric mesh circles;
- computes one arm per value and draws the polygon through the arm endpoints;
- draws each arm's data path, rest path, point and number, and groups them into a
  cover for hit testing;
- optionally lays out a legend;
- attaches `hover`, `each` and `click`.

The drawing surface (Raphaël's paper) is modelled as an append-only log of
shape records (`Surface.Shape`: a circle, path or text element plus the
attributes set on it). A shape handle is the record's index in that log. Every
builder stage is a method that appends to the log. It is proved against a
specification function, and `Radar.ExpectedChart` puts the stages together.
The lemmas state what the finished chart contains:

- how many shapes there are and where;
- that `arms`, `covers` and `series` agree index by index;
- the token sequence of every path;
- the exact mesh radii and arm angles;
- option precedence;
- the legend row positions and the legend offset table.

`Math.cos`, `Math.sin` and `Math.PI` are uninterpreted (fields of `Surface.Host`),
so are Raphaël's `getBBox` and g.Raphaël's `labelise` and `txtattr`. All coordinates
are exact `real`s.

Files:

- `values.dfy`: JavaScript values and the operators the chart applies to them.
- `options.dfy`: the defaults and the merge.
- `surface.dfy`: the shape records and host functions.
- `geometry.dfy`: the total, maximum, angles, the `arm` helper and the mesh loop's arithmetic.
- `polygon.dfy`: the polygon tokens.
- `legend.dfy`: the legend.
- `radar.dfy`: the builder and the whole-chart lemmas.
- `interaction.dfy`: `each`, `hover` and `click`.
- `seqs.dfy`: sequence facts.

Where the code and its documentation disagree, the model follows the code:

- The defaults are the ones at g.radar.js:67-76. The doc comment at lines 29-42
  gives other values, for example `strokewidth` 1 and `stroke` `"#FFF"`.
- A negative maximum is accepted, as in the code.

## Model

| member | source | states |
|---|---|---|
| `Values.Lower` | g.radar.js:250 | `toLowerCase` keeps the length, leaves no upper-case letter and maps each character independently |
| `Options.Merge` | g.radar.js:67-79 | every key the caller gives replaces the default, falsy values included; every default key the caller leaves out keeps its built-in value; no other key appears |
| `Options.MergeUnique` | g.radar.js:77-79 | the merged options are determined by `opts`, whatever order the for-in loop visits the keys in |
| `Options.NoOptionsMeansDefaults` | g.radar.js:52-79 | with no options object the merged options are exactly the defaults (`helplines` 5, `numbers` true, and so on) |
| `Geometry.Total` | g.radar.js:103-105 | the descending accumulation loop yields the sum of all values |
| `Geometry.Max` | g.radar.js:62 | `Math.max` of a non-empty list is one of the values and no value exceeds it |
| `Geometry.Angle` | g.radar.js:118 | arm `i`'s angle `i * 360 / len` is 0 exactly for arm 0 and lies in [0, 360) for every arm |
| `Geometry.AngleSpacing` | g.radar.js:118 | successive arms are exactly `360 / len` degrees apart, and `len` steps make 360 |
| `Geometry.Arm` | g.radar.js:83-100 | `path` is `M, cx, cy, L, x, y` and `rest` is `M, x, y, L, ex, ey`: the rest path starts exactly where the data path ends |
| `Geometry.ArmScaled` | g.radar.js:83-90 | an arm whose data length is `t` times its reach ends at the fraction `t` of the way from the start to the rest endpoint |
| `Geometry.DataPointOnArm` | g.radar.js:83-90 | arm `i`'s data endpoint lies at the fraction `values[i] / max` of the way from the centre to its rest endpoint, in the same direction `-angle` |
| `Geometry.ArmReach` | g.radar.js:83-90 | with exact trigonometry, the rest endpoint is at distance `r` from the centre whatever the value, and the data endpoint is at distance `\|r * values[i] / max\|` |
| `Geometry.LoopCount` | g.radar.js:111 | the `i < n` loop runs for the least natural number not below `n` |
| `Polygon.VerticesAt` | g.radar.js:123-125 | the vertex part has `3 * len` tokens, `x_i, y_i, "L"` at positions `3i .. 3i + 2` |
| `Polygon.PolygonShape` | g.radar.js:122-126 | the polygon has `3 * len + 3` tokens: `"M"`, then `x_i, y_i, "L"` in index order, then a closing pair equal to the first pair |
| `Polygon.BuildPolygon` | g.radar.js:122-126 | the pushes onto `web.pointarray` produce exactly the polygon token sequence |
| `Radar.HelpLines` | g.radar.js:109-111 | the mesh loop runs only for a truthy `helplines` that reads as a non-zero number, and then bounds it by that number |
| `Radar.MeshCircles` | g.radar.js:109-114 | no mesh circles when `helplines` is falsy; otherwise one circle per pass, circle `k` centred on the chart with the radius from `MeshRadius` |
| `Radar.WholeMesh` | g.radar.js:109-114 | for a whole number `n > 0` of help lines exactly `n` circles are drawn, all centred on the chart; circle `k` has radius `(r / n) * (k + 1)`; the outermost has radius `r`; for `r > 0` the radii strictly increase |
| `Radar.DrawMesh` | g.radar.js:109-114 | the mesh loop appends exactly the mesh circles to the paper and records their handles in order |
| `Radar.ArmGeoms` | g.radar.js:117-119 | one arm per value; arm `i` is `arm(cx, cy, r * values[i] / max, i * 360 / len, r)` |
| `Radar.ComputeArms` | g.radar.js:117-119 | the arm loop fills `arms` with exactly those arms |
| `Radar.ArmRow` | g.radar.js:130-145 | arm `i` draws 4 shapes when `numbers` is truthy and 3 otherwise |
| `Radar.ArmShapes` | g.radar.js:130-152 | the first `n` arms draw `n` times that many shapes |
| `Radar.ArmRecords` | g.radar.js:130-152 | one record per arm; arm `i`'s record names the handles of its own shapes |
| `Radar.CoverOf` | g.radar.js:146-149 | a cover holds the path, rest and point, plus the number exactly when there is one |
| `Radar.Covers` | g.radar.js:146-150 | one cover per arm, cover `i` built from arm `i` |
| `Radar.Series` | g.radar.js:151 | one series entry per arm, entry `i` being arm `i`'s point |
| `Radar.DrawArmShapes` | g.radar.js:131-145 | one pass draws exactly arm `i`'s row; the number is drawn exactly when `numbers` is truthy |
| `Radar.DrawArm` | g.radar.js:130-152 | one pass extends the paper, `arms`, `covers` and `series` by arm `i`'s entries |
| `Radar.DrawArms` | g.radar.js:130-152 | the loop leaves the paper, `arms`, `covers` and `series` as specified for all arms |
| `Radar.ArmHandlesInRange` | g.radar.js:130-152 | arm `i`'s handles increase path < rest < point < number, inside the arms' part of the paper |
| `Radar.ArmShapesAt` | g.radar.js:130-152 | arm `i`'s shapes sit at positions `PerArm * i` up to `PerArm * (i + 1)` of the arms' part of the paper |
| `Radar.RowInPaper` | g.radar.js:130-152 | on any paper that begins with the background and the arms' shapes, arm `i`'s handles name that arm's row |
| `Radar.ArmRowElements` | g.radar.js:131-139 | an arm row holds the data path, the rest path, the point of radius `circleradius` at the data endpoint, and the number `i + 1` one unit below it exactly when `numbers` is truthy |
| `Radar.ArmRowLinks` | g.radar.js:140-145 | with `href[i]` set, every shape of arm `i` carries it; otherwise only a number can carry an `href`, and only from `txtattr` |
| `Radar.Background` | g.radar.js:108-127 | the paper before the arms holds the centre dot, the mesh circles and the polygon |
| `Radar.ArmsChart` | g.radar.js:117-152 | before the legend, there is one series marker per value, each a handle on the paper |
| `Radar.WithLegend` | g.radar.js:244-289 | the legend only appends to the paper, keeps arms, series, mesh and polygon, and gives cover `k` legend row `k` |
| `Radar.ExpectedChart` | g.radar.js:51-296 | `arms`, `covers` and `series` have one entry per value, and a legend exists exactly when `opts.legend` is truthy |
| `Radar.Build` | g.radar.js:51-296 | fails exactly on empty `values` or a zero maximum; otherwise its options are the merge of `opts` and the chart is `ExpectedChart` |
| `Radar.ArmsLayout` | g.radar.js:108-152 | before the legend, the paper is the background followed by the arms' shapes, and the records, covers and series are the arm loop's |
| `Radar.ChartLayout` | g.radar.js:108-152 | the built chart's paper begins with the background and the arms' shapes, and each cover groups its arm's shapes |
| `Radar.ArmsChartLaidOut` | g.radar.js:117-152 | the chart is laid out this way already before the legend |
| `Radar.LaidOutByLoop` | g.radar.js:130-152 | the arm loop's paper, records and covers make a laid-out chart |
| `Radar.LaidOutKept` | g.radar.js:271-284 | appending legend rows and labelling covers keeps that layout |
| `Radar.ChartCounts` | g.radar.js:108-152 | the chart has `2 + \|mesh\| + PerArm * len` shapes (one centre dot, the mesh circles, one polygon, `PerArm` per value), and with a legend `PerRow * len` more; it keeps the values, centre, maximum and total |
| `Radar.ChartArmHandles` | g.radar.js:130-152 | arm `i` sits at its data endpoint; its series entry is its point; its cover is path, rest, point and then the number; the number exists exactly when `numbers` is truthy |
| `Radar.RecordShapes` | g.radar.js:130-152 | on a laid-out paper, the handles of arm `i`'s record name its paths, point and number, and `href[i]` is on every one |
| `Radar.ChartArmShapes` | g.radar.js:130-152 | in a laid-out chart, arm `i`'s handles name its data path, rest path, point and number, and `href[i]` is on every member of its cover |
| `Radar.BackgroundAt` | g.radar.js:108-127 | dot, circles and polygon keep their positions at the start of the paper |
| `Radar.ChartBackground` | g.radar.js:108-127 | handle 0 is the centre dot of radius 5; the mesh handles name the mesh circles in order; the polygon handle names the polygon through the arm endpoints |
| `Legend.ColumnX` | g.radar.js:245 | the legend column starts at `cx + r + r / 5`, right of the chart's rim when `r >= 0` |
| `Legend.LabelText` | g.radar.js:249-262 | a row's text is truthy or it is the row's value |
| `Legend.LabelTextCases` | g.radar.js:249-262 | with an array of labels the text is `labelise(labels[i], values[i], total)`, or the value when that is falsy; with any other truthy legend it is the legend's own entry `i`, or the value; with a falsy legend it is `labelise(undefined, values[i], total)`, or the value |
| `Legend.Row` | g.radar.js:261-270 | a legend row has 3 shapes when `numbers` is truthy and 2 otherwise |
| `Legend.Rows` | g.radar.js:254-273 | the first `n` rows draw `n` times that many shapes |
| `Legend.RowsPrefix` | g.radar.js:254-273 | drawing later rows leaves earlier rows where they were |
| `Legend.RowsAt` | g.radar.js:254-273 | row `i`'s shapes sit at positions `PerRow * i` up to `PerRow * (i + 1)` of the legend group |
| `Legend.RowParts` | g.radar.js:261-270 | a row has a radius-8 circle at `x + 5` in the series marker's fill, the text at `x + 20`, the number `i + 1` at `x + 5` exactly when `numbers` is truthy, and `href[i]` on every shape when set |
| `Legend.RowAdvance` | g.radar.js:247-272 | the first row is at `cy + 10`, and each row advances by 1.2 times the previous row's text height |
| `Legend.RowsDescend` | g.radar.js:272 | when text heights are positive, each row lies strictly below every earlier row |
| `Legend.Direction` | g.radar.js:250 | a non-empty string `legendpos` gives its lower-cased form; an empty string or any non-string gives `"east"`; the result is never empty and has no upper-case letter |
| `Legend.OffsetTable` | g.radar.js:275-281 | the offset is `(0, -h/2)` for a missing, empty or non-string `legendpos`; for the named directions it is east `(0, -h/2)`, west `(-w - 2r - 20, -h/2)`, north `(-r - w/2, -r - h - 10)`, south `(-r - w/2, r + 10)`, and absent for any other direction |
| `Legend.RowIds` | g.radar.js:260-265 | a row's handles are consecutive, one per shape |
| `Legend.RowIdList` | g.radar.js:252-273 | row `k`'s handles start `PerRow * k` after the legend's first shape |
| `Legend.Labelled` | g.radar.js:271 | `covers[k].label` is set to row `k` for the drawn rows, and every other cover is unchanged |
| `Legend.Fills` | g.radar.js:255 | row `i`'s mark colour is the fill of series marker `i` |
| `Legend.DrawRow` | g.radar.js:261-270 | one pass draws exactly row `i` and links each of its shapes to `href[i]` when set |
| `Legend.Advance` | g.radar.js:254-273 | one pass extends the legend group, the running height, the rows and the labelled covers by row `i` |
| `Legend.RowsOnPaper` | g.radar.js:252-273 | on any paper that ends with the legend's rows, the handles of row `k` name that row's shapes in order |
| `Legend.DrawRows` | g.radar.js:254-273 | the legend loop leaves exactly the rows, the running height, the row handles and the labelled covers of all values |
| `Legend.Draw` | g.radar.js:244-285 | the legend appends all rows, labels every cover with its row, and records the lower-cased direction, the group's box and the offset the table gives |
| `Interaction.ContextOf` | g.radar.js:158-210 | arm `j`'s context holds its point, number, cover, the centre, `values[j]` and `max`; the endpoint is `x/y` for `each` and `mx/my` for `hover`/`click` |
| `Interaction.Each` | g.radar.js:192-215 | when `f` is not a function nothing is called; otherwise `f` is called `len` times, for arms `len - 1` down to 0, each with that arm's `x/y` context |
| `Interaction.ArmListeners` | g.radar.js:158-183 | each arm registers one listener, or two when a legend exists |
| `Interaction.ArmListenersParts` | g.radar.js:171-238 | arm `j`'s listeners watch its cover and, with a legend, its legend row, for the gesture's events, each with arm `j`'s `mx/my` context |
| `Interaction.Listen` | g.radar.js:154-242 | `hover` and `click` register listeners arm by arm, from the last arm to the first |
| `Interaction.AllListeners` | g.radar.js:157-184 | the last `n` arms register `n` times the per-arm number of listeners |
| `Interaction.ListenersAt` | g.radar.js:157-219 | the `k`-th group of listeners belongs to arm `len - 1 - k` |
| `Interaction.ChartIndexed` | g.radar.js:154-242 | the built chart has one arm, cover and legend row per value, so every context can be built |
| `Interaction.ChartContext` | g.radar.js:158-170 | on the built chart, arm `j`'s context carries the centre, arm `j`'s data endpoint, `values[j]`, `Math.max` of the values and, as its label, the legend row attached to arm `j`'s cover |
| `Radar.ChartLegend` | g.radar.js:244-288 | with `opts.legend` set, the built paper is the arms' chart followed by the legend's rows, and the legend records the lower-cased `legendpos`, the rows' bounding box and the table's offset for them |
| `Radar.ChartLegendRow` | g.radar.js:252-273 | with `opts.legend` set, legend row `k` of the built chart names, in order, the mark, the text and (with numbers) the number of row `k` at its running height |
| `Radar.ChartCoverLabels` | g.radar.js:271 | on the built chart, cover `k`'s label is legend row `k` when a legend was drawn, and absent otherwise |

## Left out

- Raphaël's drawing calls (`circle`, `path`, `text`, `set`, `attr`, `getBBox`,
  `translate`) are foreign library calls. They are modelled as appended shape
  records with their final attributes. Text heights and the legend group's box
  come from the host (`Surface.Host`).
- `Math.cos`, `Math.sin` and `Math.PI` are uninterpreted host functions. Distances
  along an arm are proved only under the `cos² + sin² = 1` assumption (`Surface.Pythagorean`).
  Floating-point rounding is not modelled.
- The values are exact reals. The model does not coerce non-numeric entries
  (`+values[i]`), and it has no NaN or infinity.
- Values.ToNumber: strings and arrays read as NaN. In JavaScript a numeric string
  such as `"3"` coerces to 3, so a string `helplines` draws no mesh in the model.
- Values.Lower: only ASCII letters are lower-cased. Unicode case mapping is not modelled.
- `labelise` and `txtattr` come from the `Raphael.g` base object, which is not
  part of this model (g.radar.js:138, 259, 262, 300-301). They are host
  parameters.
- The `values[i].others && (labels[j] = otherslabel || "Others")` substitution
  (g.radar.js:258) is not modelled. The model's values are numbers, and a
  number has no `others` property, so the guard is always `undefined` and the
  assignment never runs; for such values the model is exact.
- The legend mark is always a circle. `mark = paper[mark && mark.toLowerCase()] || "circle"`
  followed by `paper[mark](...)` (g.radar.js:251, 261) only works when `mark` ends
  as the string `"circle"`.
- The legend translation is recorded as an offset in `Legend.Layout`. It is not
  applied to the recorded coordinates of the legend shapes. For a direction
  outside the table, `translate` is called with no offset; the model records
  `None`.
- Event delivery in `hover`/`click` (`mouseover`, `mouseout`, `click`) is host UI
  plumbing. The model records the listeners each call registers and the context
  each would pass. It does not model `fin`/`fout` being called, nor the default
  `fout` (g.radar.js:155).
- `Raphael.is(f, "function")` (g.radar.js:193) is a boolean parameter of
  `Interaction.Each`. `Each` returns the sequence of calls; it does not return
  the chart (`return this`).
- `chart.push(series, covers, middle_point, mesh)` and `chart.push(chart.labels)`
  (g.radar.js:284, 291) are not modelled as a separate group. The `Chart` record
  names those handles directly.
- Radar.Build: on empty `values` the code throws at g.radar.js:126, where
  `arms[0]` is undefined; the model returns `Err(EmptyValues)` instead of
  modelling the exception.
- Radar.Build: when `max` is 0, the code divides by zero at g.radar.js:118 and
  draws a chart with NaN or infinite coordinates; the model returns
  `Err(ZeroMaximum)` instead of that chart.
- Radar.Build: the merge at g.radar.js:77-78 copies the caller's `legend` array
  by reference, and the legend loop writes the labelised texts back into it
  (g.radar.js:259). The model leaves the caller's options untouched and keeps
  the labelised texts only in the legend shapes.
- Prototype inheritance and plugin registration (g.radar.js:298-306) are not
  modelled.
