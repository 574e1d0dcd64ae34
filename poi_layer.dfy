/**
 * The decoded shape of a vector tile, as the tile fetch, the Mapbox vector
 * tile decoder and the GeoJSON conversion hand it to the app, and the two
 * steps the app takes on it: pick the first layer named "pois" and turn
 * each of its Point features into a pin.
 */
module PoiLayer {
  import opened Wrappers

  /** A GeoJSON feature geometry: a Point with its coordinates, or anything else. */
  datatype Geometry = Point(lon: real, lat: real) | Other

  /** A decoded layer: its name and its features in decoded order. */
  datatype Layer = Layer(name: string, features: seq<Geometry>)

  /** A map marker at (latitude, longitude). */
  datatype Pin = Pin(lat: real, lon: real)

  /** Name of the layer the app draws. */
  const PoiLayerName: string := "pois"

  /**
   * Index of the first layer named "pois", or |layers| when there is none
   * (the position FirstOrDefault stops at).
   */
  function FirstPoisIndex(layers: seq<Layer>): (i: nat)
    ensures i <= |layers|
    ensures forall j :: 0 <= j < i ==> layers[j].name != PoiLayerName
    ensures i < |layers| ==> layers[i].name == PoiLayerName
  {
    if layers == [] then 0
    else if layers[0].name == PoiLayerName then 0
    else 1 + FirstPoisIndex(layers[1..])
  }

  /** `(from layer in layers where layer.Name == "pois" select layer).FirstOrDefault()`. */
  function SelectPoiLayer(layers: seq<Layer>): Option<Layer> {
    var i := FirstPoisIndex(layers);
    if i < |layers| then Some(layers[i]) else None
  }

  /** The selection is absent exactly when no layer is named "pois", and is otherwise the first such layer. */
  lemma SelectPoiLayerIsFirstMatch(layers: seq<Layer>)
    ensures SelectPoiLayer(layers).None? <==> forall j :: 0 <= j < |layers| ==> layers[j].name != PoiLayerName
    ensures SelectPoiLayer(layers).Some? ==>
      exists i :: 0 <= i < |layers| && layers[i] == SelectPoiLayer(layers).value &&
        layers[i].name == PoiLayerName && forall j :: 0 <= j < i ==> layers[j].name != PoiLayerName
  {
  }

  /** The pins drawn for a feature list: one per Point, in feature order. */
  function PinsOf(features: seq<Geometry>): seq<Pin>
    decreases |features|
  {
    if features == [] then []
    else
      var last := features[|features| - 1];
      PinsOf(features[..|features| - 1]) + (if last.Point? then [Pin(last.lat, last.lon)] else [])
  }

  /** Number of Point features in a feature list. */
  function CountPoints(features: seq<Geometry>): nat
    decreases |features|
  {
    if features == [] then 0
    else CountPoints(features[..|features| - 1]) + (if features[|features| - 1].Point? then 1 else 0)
  }

  /**
   * Exactly one pin per Point feature, in feature order: pin number
   * CountPoints(features[..i]) is the one made from the Point at index i.
   */
  lemma {:induction false} PinsOfOnePerPoint(features: seq<Geometry>)
    ensures |PinsOf(features)| == CountPoints(features)
    ensures forall i :: 0 <= i < |features| && features[i].Point? ==>
      CountPoints(features[..i]) < |PinsOf(features)| &&
      PinsOf(features)[CountPoints(features[..i])] == Pin(features[i].lat, features[i].lon)
    decreases |features|
  {
    if features != [] {
      var n := |features| - 1;
      var init := features[..n];
      PinsOfOnePerPoint(init);
      assert features[..n] == init;
      forall i | 0 <= i < |features| && features[i].Point?
        ensures CountPoints(features[..i]) < |PinsOf(features)|
        ensures PinsOf(features)[CountPoints(features[..i])] == Pin(features[i].lat, features[i].lon)
      {
        if i < n {
          assert init[..i] == features[..i];
          assert init[i] == features[i];
        } else {
          assert features[..i] == init;
        }
      }
    }
  }

  /** Features other than Points never produce a pin. */
  lemma {:induction false} NoPointsNoPins(features: seq<Geometry>)
    requires forall i :: 0 <= i < |features| ==> !features[i].Point?
    ensures PinsOf(features) == []
    decreases |features|
  {
    if features != [] {
      NoPointsNoPins(features[..|features| - 1]);
    }
  }
}
