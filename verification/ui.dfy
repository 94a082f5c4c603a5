/**
  What the page asks of the outside world, as values: notifications, map
  moves, tile-layer swaps, starting the position watch, reconnect timers and
  socket sends. The page's handlers return these instead of calling the
  mapping library, the DOM, timers or the socket.
 */
module Ui {

  import opened Floats

  datatype NoticeKind = Info | Success | Error

  /** The three base maps the page offers. */
  datatype Layer = Osm | CartoDb | Stamen {
    function Name(): string {
      match this
      case Osm => "OpenStreetMap"
      case CartoDb => "CartoDB Positron"
      case Stamen => "Stamen Toner"
    }
  }

  /** The record the page sends for each position sample. */
  datatype Outbound = Outbound(id: string, lat: Float, lng: Float, deviceType: string)

  datatype Effect =
    | Notify(message: string, kind: NoticeKind)
    | Recenter(lat: Float, lng: Float, zoom: nat)
    | ShowLayer(layer: Layer)
    | StartTracking
    | ScheduleReconnect(delayMs: nat)
    | Send(payload: Outbound)

  predicate IsRecenter(e: Effect) {
    e.Recenter?
  }

  predicate IsJoinNotice(e: Effect) {
    e.Notify? && e.kind == Info
  }

  predicate IsReconnect(e: Effect) {
    e.ScheduleReconnect?
  }

  /** How many of `effects` satisfy `p`. */
  function Count(effects: seq<Effect>, p: Effect -> bool): (n: nat)
    ensures n <= |effects|
    decreases |effects|
  {
    if |effects| == 0 then 0
    else Count(effects[..|effects| - 1], p) + (if p(effects[|effects| - 1]) then 1 else 0)
  }

  lemma {:induction false} CountAppend(a: seq<Effect>, b: seq<Effect>, p: Effect -> bool)
    ensures Count(a + b, p) == Count(a, p) + Count(b, p)
    decreases |b|
  {
    if |b| > 0 {
      var b' := b[..|b| - 1];
      assert (a + b)[..|a + b| - 1] == a + b';
      CountAppend(a, b', p);
    } else {
      assert a + b == a;
    }
  }
}
