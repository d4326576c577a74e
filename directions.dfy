/** The part of a routing-provider response (`gmaps.directions(...)`, one entry per
    alternative route) that the scoring core reads. Every dictionary key the core
    looks up is an `Option`, because a response without it is possible and the
    core reacts to its absence. */
module Directions {
  import opened Common

  /** A `{'lat': ..., 'lng': ...}` location. */
  datatype LatLng = LatLng(lat: real, lng: real)

  /** A `{'text': ..., 'value': ...}` duration entry of a leg; only `text` is read. */
  datatype DurationEntry = DurationEntry(text: Option<string>)

  /** One turn-by-turn step; `html_instructions` is raw text with markup. */
  datatype Step = Step(htmlInstructions: Option<string>)

  /** One leg of a route. `distance` is `distance.value`, in metres. */
  datatype Leg = Leg(
    steps: Option<seq<Step>>,
    distance: Option<nat>,
    durationInTraffic: Option<DurationEntry>,
    duration: Option<DurationEntry>,
    startLocation: Option<LatLng>,
    endLocation: Option<LatLng>)

  /** One candidate route. A route without a `legs` key is one with no legs;
      `polyline` is `overview_polyline.points`. */
  datatype Route = Route(legs: seq<Leg>, summary: Option<string>, polyline: Option<string>)
}
