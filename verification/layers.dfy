/** The base-map switcher. */
module Layers {

  import opened Ui

  /** The page starts on OpenStreetMap. */
  const InitialLayer := Osm

  datatype Switch = Switch(current: Layer, effects: seq<Effect>)

  /**
    Choosing the layer already shown does nothing; choosing another one swaps
    the tiles, makes it current and announces it.
   */
  function SwitchMapLayer(current: Layer, target: Layer): (r: Switch)
    ensures r.current == target
    ensures target == current ==> r.effects == []
    ensures target != current ==>
      r.effects == [ShowLayer(target), Notify("Switched to " + target.Name(), Info)]
  {
    if current == target then Switch(current, [])
    else Switch(target, [ShowLayer(target), Notify("Switched to " + target.Name(), Info)])
  }

  /** A second click on the same button is a no-op. */
  lemma SwitchIdempotent(current: Layer, target: Layer)
    ensures SwitchMapLayer(SwitchMapLayer(current, target).current, target) == Switch(target, [])
  {
  }
}
