/** The per-feature callbacks that createFeatures in static/js/logic.js hands to L.geoJSON:
    pointToLayer, which turns a feature into a styled circle, and onEachFeature, which binds a popup
    to it. Leaflet's own work is outside the model: it converts the feature's [longitude, latitude]
    coordinates into the latlng that pointToLayer receives, and it owns the circle and the popup.
    Magnitudes here are exact reals, which have no counterpart of JavaScript's shortest round-trip
    digit rendering of a double, so the popup takes the magnitude's rendering as a parameter; the
    rendering of a Date depends on the locale and the time zone, so it is a parameter too. */
module Features {
  import opened Encoder
  import Legend

  /** The feed fields the callbacks read: properties.place, properties.mag and properties.time
      (milliseconds since the epoch). */
  datatype Properties = Properties(place: string, mag: real, time: int)
  datatype Feature = Feature(properties: Properties)

  /** A map position, as Leaflet passes it to pointToLayer. */
  datatype LatLng = LatLng(lat: real, lng: real)

  /** The options object of L.circle. */
  datatype CircleOptions = CircleOptions(
    radius: real, fillColor: string, fillOpacity: real, color: string, stroke: bool, weight: real)
  datatype Circle = Circle(center: LatLng, options: CircleOptions)

  /** What the layer shows for one feature: the circle and the popup bound to it. */
  datatype Marker = Marker(circle: Circle, popup: string)

  /** The fixed stroke and fill settings of every circle. */
  const FillOpacity: real := 0.6
  const StrokeColor: string := "#000"
  const StrokeWeight: real := 0.8

  /** pointToLayer: a circle at the given position whose radius and fill colour both encode the
      magnitude, with fixed stroke settings. */
  function PointToLayer(feature: Feature, latlng: LatLng): (c: Circle)
    ensures c.center == latlng
    ensures c.options.radius / RadiusPerMagnitude == feature.properties.mag
    ensures c.options.fillColor == Ladder[Bucket(feature.properties.mag)]
    ensures c.options.fillOpacity == 0.6 && c.options.color == "#000"
    ensures c.options.stroke && c.options.weight == 0.8
  {
    var mag := feature.properties.mag;
    Circle(latlng, CircleOptions(Radius(mag), Color(mag), FillOpacity, StrokeColor, true, StrokeWeight))
  }

  /** The popup's opening: the place as a level-3 heading, then the start of the magnitude heading
      with the rendered magnitude. */
  function PopupHead(place: string, magText: string): string {
    "<h3>Location: " + place + "</h3><h6>Magnitude: " + magText
  }

  /** onEachFeature: the popup text bound to the feature's layer. */
  function Popup(feature: Feature, numberText: real -> string, dateText: int -> string): (p: string)
    ensures PopupHead(feature.properties.place, numberText(feature.properties.mag)) <= p
    ensures |p| >= 4 && p[|p| - 4..] == "</p>"
    ensures var place := feature.properties.place;
      |p| >= 14 + |place| && p[14..14 + |place|] == place
    ensures var date := dateText(feature.properties.time);
      |p| >= 4 + |date| && p[|p| - 4 - |date|..|p| - 4] == date
    ensures var head := PopupHead(feature.properties.place, numberText(feature.properties.mag));
      var date := dateText(feature.properties.time);
      && |p| == |head| + 12 + |date| + 4
      && p[|head|..|head| + 12] == "</h6><hr><p>"
  {
    var props := feature.properties;
    PopupHead(props.place, numberText(props.mag)) + "</h6><hr><p>" + dateText(props.time) + "</p>"
  }

  /** The marker Leaflet builds for one feature from the two callbacks. */
  function ToMarker(feature: Feature, latlng: LatLng, numberText: real -> string, dateText: int -> string): (m: Marker)
    ensures m.circle.center == latlng
    ensures m.circle.options.fillColor == Color(m.circle.options.radius / RadiusPerMagnitude)
    ensures PopupHead(feature.properties.place, numberText(feature.properties.mag)) <= m.popup
  {
    Marker(PointToLayer(feature, latlng), Popup(feature, numberText, dateText))
  }

  /** A marker's size and colour agree: its fill colour is the one getColor gives the magnitude its
      radius encodes, and that colour is the legend swatch of the magnitude's interval. */
  lemma MarkerEncodingsAgree(feature: Feature, latlng: LatLng, numberText: real -> string, dateText: int -> string)
    ensures var m := ToMarker(feature, latlng, numberText, dateText);
      m.circle.options.fillColor == Color(m.circle.options.radius / RadiusPerMagnitude)
    ensures var m := ToMarker(feature, latlng, numberText, dateText);
      m.circle.options.fillColor == Legend.Entries(Legend.DefaultGrades)[Bucket(feature.properties.mag)].swatch
  {
  }

  /** A feature of magnitude 4.2 at (10, 20) gets radius 105000, the colour of (4, 5], its position
      unchanged, and a popup that shows its place and its rendered magnitude. */
  lemma ExampleFeature(numberText: real -> string, dateText: int -> string)
    requires numberText(4.2) == "4.2"
    ensures var f := Feature(Properties("10km N of X", 4.2, 1600000000000));
      var m := ToMarker(f, LatLng(10.0, 20.0), numberText, dateText);
      && m.circle.options.radius == 105000.0
      && m.circle.options.fillColor == "#cc5500"
      && m.circle.center == LatLng(10.0, 20.0)
      && m.popup[14..25] == "10km N of X"
      && m.popup[..|"<h3>Location: 10km N of X</h3><h6>Magnitude: 4.2"|]
         == "<h3>Location: 10km N of X</h3><h6>Magnitude: 4.2"
  {
  }

  /** Three features of magnitudes 0.5, 3.5 and 6.0 get the lightest, the (3, 4] and the darkest
      colours, and radii 12500, 87500 and 150000. */
  lemma ExampleBatch(latlng: LatLng)
    ensures var c := PointToLayer(Feature(Properties("", 0.5, 0)), latlng);
      c.options.fillColor == "#ffcca5" && c.options.radius == 12500.0
    ensures var c := PointToLayer(Feature(Properties("", 3.5, 0)), latlng);
      c.options.fillColor == "#ff6f08" && c.options.radius == 87500.0
    ensures var c := PointToLayer(Feature(Properties("", 6.0, 0)), latlng);
      c.options.fillColor == "#a54500" && c.options.radius == 150000.0
  {
  }
}
