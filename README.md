# Earthquake map encoders: a verified model

The repository draws a map of the last day's earthquakes. It fetches the feed once, draws each
earthquake as a circle whose radius and fill colour encode the magnitude, binds a popup to each
circle, and adds a legend of the colour buckets. This project models the deterministic part of
`static/js/logic.js` and proves properties of it:

- `Encoder` models `getColor`, a threshold ladder with strict `>` tests that maps a magnitude to one
  of six colours, and `getRadius`, which scales a magnitude by 25000. `Bucket` is a second,
  independent definition of the colour interval, built from the ceiling of the magnitude. The
  lemmas prove that the ladder and `Bucket` agree, that the six intervals partition the real line,
  that boundary values fall into the lower bucket, that colour is monotone, and that the radius is
  exact, linear and strictly increasing.
- `Legend` models `legend.onAdd`. The method `OnAdd` is the loop that appends one swatch and one
  label per grade to the legend's HTML. It is proved against the specification function `Entries`.
  The lemmas prove what the default grades `[0, 1, 2, 3, 4, 5]` produce. They also prove that the
  legend agrees with the markers: a magnitude gets the swatch of line i exactly when it lies in
  bucket i.
- `Features` models the `pointToLayer` callback (the styled circle) and the `onEachFeature`
  callback (the popup text).
- `Text` renders integers in decimal, the way JavaScript concatenates an integral number into a
  string. The legend uses it for its grade labels.

Magnitudes are exact `real`s. The popup takes two renderings as function parameters. The first is
how a magnitude prints. JavaScript prints a double as the shortest digit string that reads back to
the same double, and exact reals have no counterpart of that. The second is how `new Date(time)`
prints, which depends on the locale and the time zone.

## Model

| member | source | states |
|---|---|---|
| `Encoder.Color` | static/js/logic.js:152-164 | getColor always returns one of the six ladder colours |
| `Encoder.Bucket` | static/js/logic.js:152-164 | every magnitude lies in the interval of the bucket computed from its ceiling: (-inf,1], (k,k+1] for k=1..4, or (5,+inf) |
| `Encoder.LadderDistinct` | static/js/logic.js:153-163 | the six colours are pairwise distinct |
| `Encoder.ColorOfBucket` | static/js/logic.js:152-164 | getColor returns the ladder colour of the magnitude's bucket |
| `Encoder.BucketsPartition` | static/js/logic.js:152-164 | a magnitude lies in interval k exactly when k is its bucket, and exactly when getColor returns colour k; the intervals are disjoint and exhaustive |
| `Encoder.ColorBoundaries` | static/js/logic.js:153-163 | integer boundaries fall into the lower bucket: 5 gives #cc5500, 2 gives #ffb37e, 1 gives #ffcca5; also 5.1, 1.1 and -3 |
| `Encoder.ColorTails` | static/js/logic.js:153-163 | every magnitude <= 1, including zero and negatives, gets #ffcca5; every magnitude > 5 gets #a54500 |
| `Encoder.ColorMonotone` | static/js/logic.js:152-164 | if a <= b, the ladder position of getColor(a) is no higher than that of getColor(b) |
| `Encoder.ColorConstantBetweenIntegers` | static/js/logic.js:152-164 | for any integer g, every magnitude in (g, g+1] gets the same colour as g+1, because the thresholds are integers and the tests strict |
| `Encoder.Radius` | static/js/logic.js:167-169 | dividing the radius by 25000 gives back the magnitude exactly (no clamping); the radius is negative, or zero, exactly when the magnitude is |
| `Encoder.RadiusLinear` | static/js/logic.js:167-169 | the radius is proportional to the magnitude: additive and homogeneous |
| `Encoder.RadiusStrictlyIncreasing` | static/js/logic.js:167-169 | a < b implies getRadius(a) < getRadius(b) |
| `Text.NatToString` | static/js/logic.js:142-143 | the decimal rendering of a grade is a non-empty digit string with no leading zero |
| `Text.NatToStringRoundTrip` | static/js/logic.js:142-143 | reading the digits back gives the number rendered |
| `Text.IntToStringRoundTrip` | static/js/logic.js:142-143 | reading the rendering of any integer, negative ones included, back gives that integer |
| `Text.IntToString` | static/js/logic.js:142-143 | the rendering of a non-negative grade is a digit string; that of a negative grade is a minus sign followed by a digit string; `IntToStringRoundTrip` proves it reads back to the grade |
| `Text.SmallIntTexts` | static/js/logic.js:142-143 | the grades 0 to 5 render as "0" to "5" |
| `Legend.EntryAt` | static/js/logic.js:138-143 | the line of grade i has one of the six ladder colours as its swatch; its caption starts with the grade's text; it ends in "<br>" when grades[i+1] is truthy, and otherwise it is the grade followed by "+" |
| `Legend.Entries` | static/js/logic.js:134-143 | the legend has exactly one line per grade, in grade order; `SwatchMatchesInterval`, `LegendAgreesWithMarkers` and the default-grade lemmas are stated about it |
| `Legend.OnAdd` | static/js/logic.js:132-146 | the HTML the loop accumulates is the markup of the lines of all grades in `Entries`, appended in grade order |
| `Legend.LoopStep` | static/js/logic.js:137-144 | one iteration of the loop appends exactly the markup of the legend line of grade i |
| `Legend.DefaultEntry` | static/js/logic.js:134-143 | with the default grades, swatch i is ladder colour i; lines 0-4 read grades[i] + "&ndash;" + grades[i+1] + "<br>" and the last reads "5+" |
| `Legend.DefaultSwatches` | static/js/logic.js:134-140 | the legend has exactly six lines, and their swatches run through the ladder from lightest to darkest |
| `Legend.DefaultGradesList` | static/js/logic.js:134 | the default grades are the list [0, 1, 2, 3, 4, 5] |
| `Legend.DefaultCaptionTexts` | static/js/logic.js:142-143 | the literal captions "0&ndash;1<br>" … "4&ndash;5<br>" and "5+" are what the concatenation gives for grades 0 to 5 |
| `Legend.DefaultCaptionForm` | static/js/logic.js:142-143 | for any index below 5 the literal caption is grade + "&ndash;" + next grade + "<br>", and the last is "5+" |
| `Legend.DefaultCaptionLines` | static/js/logic.js:134-143 | the six legend lines read exactly "0&ndash;1<br>", "1&ndash;2<br>", "2&ndash;3<br>", "3&ndash;4<br>", "4&ndash;5<br>", and "5+" (because grades[6] is undefined) |
| `Legend.SwatchMatchesInterval` | static/js/logic.js:140 | for any integer grades, the swatch of grade g is the colour getColor gives every magnitude in (g, g+1] |
| `Legend.LegendAgreesWithMarkers` | static/js/logic.js:134-143 | with the default grades, a magnitude's marker colour equals swatch i exactly when the magnitude lies in bucket i; so line 0 covers every magnitude <= 1 and line 5 every magnitude > 5 |
| `Features.PointToLayer` | static/js/logic.js:30-39 | the circle sits at the given position; its radius encodes the magnitude (radius / 25000 = mag); its fill colour is the colour of the magnitude's bucket; opacity 0.6, stroke "#000", stroke on, weight 0.8 |
| `Features.Popup` | static/js/logic.js:19-27 | the popup begins with "<h3>Location: " + place + "</h3><h6>Magnitude: " + the rendered magnitude; it holds the place at offset 14, then exactly "</h6><hr><p>", then the rendered date, then the closing "</p>", and nothing else |
| `Features.ToMarker` | static/js/logic.js:17-39 | the marker of one feature sits at the given position; its fill colour is getColor of the magnitude its radius encodes; its popup starts with the place and the rendered magnitude |
| `Features.MarkerEncodingsAgree` | static/js/logic.js:17-39 | a marker's fill colour is getColor of the magnitude its radius encodes, and it equals the legend swatch of the magnitude's interval |
| `Features.ExampleFeature` | static/js/logic.js:18-39 | magnitude 4.2 at (10, 20) gives radius 105000, colour #cc5500, the position unchanged, and a popup showing the place and "4.2" |
| `Features.ExampleBatch` | static/js/logic.js:30-39 | magnitudes 0.5, 3.5, 6.0 give colours #ffcca5, #ff6f08, #a54500 and radii 12500, 87500, 150000 |

## Left out

- The fetch of the feed (static/js/logic.js:3-11): network I/O with no error handling, outside the model.
- Leaflet and the DOM (`L.geoJSON`, `L.circle`, `L.tileLayer`, `L.map`, `L.control.layers`, `L.DomUtil.create`, `bindPopup`, `addTo`): foreign library calls. The circle and the popup are therefore modelled as the values handed to Leaflet. The conversion of GeoJSON `[longitude, latitude]` into the `latlng` argument happens inside Leaflet, so `PointToLayer` takes `latlng` as a parameter.
- The iteration of `L.geoJSON` over the feature array: it happens inside Leaflet. `ToMarker` models one feature.
- Tile URLs, the access token, the map centre, the zoom and the layer control (static/js/logic.js:48-103): configuration with no logic.
- The commented-out legend (static/js/logic.js:104-130): dead code.
- IEEE-754 arithmetic: magnitudes are exact reals. Rounding in `value * 25000`, NaN and infinities are not modelled. In JavaScript every comparison with NaN is false, so `getColor(NaN)` is "#ffcca5".
- Number and Date rendering in the popup: both are parameters. Exact reals have no shortest round-trip digit rendering of a double, which is how JavaScript prints a magnitude. `Date.prototype.toString` depends on the locale and the time zone.
- Legend.OnAdd: `html` is the concatenation of the fragments assigned to `div.innerHTML`. It is not the string `div.innerHTML` finally holds, because `+=` reads back the DOM's serialization before appending, and after the first iteration that serialization holds the en-dash character instead of `&ndash;`. The rendered legend is the same.
- Text.IntToString: matches JavaScript's rendering of integral numbers only below 1e21, where JavaScript switches to exponent notation. The legend's grades are far below that.
- Feature fields other than `place`, `mag` and `time`, and missing or null values (for example a null `mag`): the callbacks read only those three fields and do not validate them.
