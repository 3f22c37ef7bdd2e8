/** The risk map's layer registry: an ordered list of overlays, each with an
    on/off flag and an opacity percentage, changed only by toggling and by
    the opacity slider. */
module Layers {

  /** One overlay; the source's icon component is not part of the model. */
  datatype Layer = Layer(id: string, name: string, enabled: bool, opacity: real, color: string)

  /** The six layers the map starts with, in display order. */
  const InitialLayers: seq<Layer> := [
    Layer("risk-zones", "Risk Zones", true, 70.0, "multi"),
    Layer("fire-incidents", "Fire Incidents", true, 100.0, "red"),
    Layer("weather-stations", "Weather Stations", true, 100.0, "blue"),
    Layer("wind-patterns", "Wind Patterns", false, 60.0, "purple"),
    Layer("evacuation-routes", "Evacuation Routes", false, 80.0, "green"),
    Layer("vegetation", "Vegetation Density", false, 50.0, "green")
  ]

  function Ids(layers: seq<Layer>): set<string> {
    set i | 0 <= i < |layers| :: layers[i].id
  }

  function EnabledIds(layers: seq<Layer>): set<string> {
    set i | 0 <= i < |layers| && layers[i].enabled :: layers[i].id
  }

  /** `toggleLayer`: every layer whose id matches has its flag flipped; name,
      opacity, colour, order and every other layer are kept. */
  function ToggleLayer(layers: seq<Layer>, layerId: string): (r: seq<Layer>)
    ensures |r| == |layers|
    ensures forall i :: 0 <= i < |r| ==>
              r[i] == if layers[i].id == layerId then layers[i].(enabled := !layers[i].enabled) else layers[i]
    decreases |layers|
  {
    if |layers| == 0 then []
    else
      var head := if layers[0].id == layerId then layers[0].(enabled := !layers[0].enabled) else layers[0];
      [head] + ToggleLayer(layers[1..], layerId)
  }

  /** `updateLayerOpacity`: every layer whose id matches takes the new
      opacity as given, with no clamping; everything else is kept. */
  function UpdateLayerOpacity(layers: seq<Layer>, layerId: string, opacity: real): (r: seq<Layer>)
    ensures |r| == |layers|
    ensures forall i :: 0 <= i < |r| ==>
              r[i] == if layers[i].id == layerId then layers[i].(opacity := opacity) else layers[i]
    decreases |layers|
  {
    if |layers| == 0 then []
    else
      var head := if layers[0].id == layerId then layers[0].(opacity := opacity) else layers[0];
      [head] + UpdateLayerOpacity(layers[1..], layerId, opacity)
  }

  /** Toggling the same layer twice restores the registry. */
  lemma ToggleTwice(layers: seq<Layer>, layerId: string)
    ensures ToggleLayer(ToggleLayer(layers, layerId), layerId) == layers
  {
    var r := ToggleLayer(ToggleLayer(layers, layerId), layerId);
    assert forall i :: 0 <= i < |r| ==> r[i] == layers[i];
  }

  /** Toggling an id that no layer has leaves the registry unchanged. */
  lemma ToggleUnknown(layers: seq<Layer>, layerId: string)
    requires layerId !in Ids(layers)
    ensures ToggleLayer(layers, layerId) == layers
  {
    var r := ToggleLayer(layers, layerId);
    forall i | 0 <= i < |r|
      ensures r[i] == layers[i]
    {
      assert layers[i].id in Ids(layers);
    }
  }

  /** Setting an opacity never changes which layers are enabled. */
  lemma OpacityKeepsEnabled(layers: seq<Layer>, layerId: string, opacity: real)
    ensures EnabledIds(UpdateLayerOpacity(layers, layerId, opacity)) == EnabledIds(layers)
  {
    var r := UpdateLayerOpacity(layers, layerId, opacity);
    assert forall i :: 0 <= i < |r| ==> r[i].id == layers[i].id && r[i].enabled == layers[i].enabled;
  }

  /** The map starts with exactly the zone, incident and station layers on. */
  lemma InitialEnabledLayers()
    ensures EnabledIds(InitialLayers) == {"risk-zones", "fire-incidents", "weather-stations"}
    ensures Ids(InitialLayers) == {"risk-zones", "fire-incidents", "weather-stations",
                                   "wind-patterns", "evacuation-routes", "vegetation"}
  {
    var e := EnabledIds(InitialLayers);
    assert InitialLayers[0].id in e && InitialLayers[1].id in e && InitialLayers[2].id in e;
    var a := Ids(InitialLayers);
    assert InitialLayers[3].id in a && InitialLayers[4].id in a && InitialLayers[5].id in a;
    assert InitialLayers[0].id in a && InitialLayers[1].id in a && InitialLayers[2].id in a;
  }
}
