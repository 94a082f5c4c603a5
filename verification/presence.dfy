/**
  The page's presence tracker: one marker per participant ID, a visible user
  count, and a one-time recenter on the local user's first position. Inbound
  records come from `JSON.parse`, so their fields are modelled as JavaScript
  values and coerced the way `parseFloat` and `||` coerce them.
 */
module Presence {

  import opened Options
  import opened Floats
  import opened Ui

  /**
    A decoded JSON field, or `Undefined` when the field is missing. For a
    string, `leading` is the number `parseFloat` reads from its numeric prefix
    (NaN when there is none); for an array or object it is the number read
    from the value's string form.
   */
  datatype JsValue =
    | Undefined
    | Null
    | Bool(b: bool)
    | Num(n: Float)
    | Str(text: string, leading: Float)
    | Composite(leading: Float)

  /** JavaScript truthiness, as `||` tests it. */
  predicate Truthy(v: JsValue) {
    match v
    case Undefined => false
    case Null => false
    case Bool(b) => b
    case Num(n) => !n.NaN? && n != Finite(0.0)
    case Str(t, _) => t != ""
    case Composite(_) => true
  }

  /** `parseFloat`: the value's string form read as a number, NaN when it is not one. */
  function ParseFloat(v: JsValue): (x: Float)
    ensures v.Num? ==> x == v.n
    ensures v.Undefined? || v.Null? || v.Bool? ==> x == NaN
  {
    match v
    case Num(n) => n
    case Str(t, leading) => if t == "" then NaN else leading
    case Composite(leading) => leading
    case _ => NaN
  }

  /** An inbound record; `long` is the alternative longitude field. */
  datatype Inbound = Inbound(id: string, lat: JsValue, lng: JsValue, long: JsValue, deviceType: string)

  function Latitude(r: Inbound): Float {
    ParseFloat(r.lat)
  }

  /** Longitude is read from `lng`, and from `long` only when `lng` is falsy. */
  function Longitude(r: Inbound): (x: Float)
    ensures Truthy(r.lng) ==> x == ParseFloat(r.lng)
    ensures !Truthy(r.lng) ==> x == ParseFloat(r.long)
  {
    ParseFloat(if Truthy(r.lng) then r.lng else r.long)
  }

  /** Both coordinates are numbers (infinities included: only NaN is rejected). */
  predicate Readable(r: Inbound) {
    !IsNaN(Latitude(r)) && !IsNaN(Longitude(r))
  }

  datatype Popup = Popup(title: string, detail: string)

  datatype Marker = Marker(lat: Float, lng: Float, popup: Popup)

  datatype Tracker = Tracker(
    userId: string,
    markers: map<string, Marker>,
    userCount: int,
    userZoomed: bool)

  const RecenterZoom := 15
  const JoinIdLength := 10

  /** The page starts with no markers, a count of zero and no recenter done. */
  function NewTracker(userId: string): (t: Tracker)
    ensures t.markers == map[] && t.userCount == 0
    ensures CountMatches(t) && !t.userZoomed && t.userId == userId
  {
    Tracker(userId, map[], 0, false)
  }

  /** The popup names the local user "You" and everyone else by ID. */
  function PopupFor(userId: string, r: Inbound): (p: Popup)
    ensures r.id == userId ==> p.title == "You"
    ensures r.id != userId ==> p.title == r.id
    ensures p.detail == r.deviceType
  {
    Popup(if r.id == userId then "You" else r.id, r.deviceType)
  }

  /** The join notice shows at most the first ten characters of the ID. */
  function JoinMessage(id: string): (m: string)
    ensures |m| == |"User joined: "| + (if |id| < JoinIdLength then |id| else JoinIdLength)
    ensures m[..|"User joined: "|] == "User joined: "
    ensures m[|"User joined: "|..] <= id
  {
    "User joined: " + (if |id| < JoinIdLength then id else id[..JoinIdLength])
  }

  datatype Update = Update(tracker: Tracker, effects: seq<Effect>)

  /** Handling of one inbound record. */
  function UpdateMarker(t: Tracker, r: Inbound): (u: Update)
    ensures u.tracker.userId == t.userId
    ensures !Readable(r) ==> u == Update(t, [])
    ensures Readable(r) ==>
      u.tracker.markers == t.markers[r.id := Marker(Latitude(r), Longitude(r), PopupFor(t.userId, r))]
    ensures Readable(r) && r.id !in t.markers ==>
      u.tracker.userCount == |u.tracker.markers| == |t.markers| + 1
    ensures !(Readable(r) && r.id !in t.markers) ==> u.tracker.userCount == t.userCount
    ensures u.tracker.userZoomed == (t.userZoomed || (Readable(r) && r.id !in t.markers && r.id == t.userId))
    ensures u.effects ==
      if Readable(r) && r.id !in t.markers && r.id == t.userId && !t.userZoomed then
        [Recenter(Latitude(r), Longitude(r), RecenterZoom)]
      else if Readable(r) && r.id !in t.markers && r.id != t.userId then
        [Notify(JoinMessage(r.id), Info)]
      else []
  {
    var lat := Latitude(r);
    var lng := Longitude(r);
    if IsNaN(lat) || IsNaN(lng) then Update(t, [])
    else
      var marker := Marker(lat, lng, PopupFor(t.userId, r));
      if r.id !in t.markers then
        var markers := t.markers[r.id := marker];
        var counted := t.(markers := markers, userCount := |markers|);
        var recenter := r.id == t.userId && !t.userZoomed;
        var t' := if recenter then counted.(userZoomed := true) else counted;
        var effects :=
          (if recenter then [Recenter(lat, lng, RecenterZoom)] else [])
          + (if r.id != t.userId then [Notify(JoinMessage(r.id), Info)] else []);
        Update(t', effects)
      else
        Update(t.(markers := t.markers[r.id := marker]), [])
  }

  /** A socket message: a record, or `None` when it did not parse (logged and ignored). */
  function OnMessage(t: Tracker, parsed: Option<Inbound>): (u: Update)
    ensures parsed == None ==> u == Update(t, [])
    ensures parsed.Some? ==> u == UpdateMarker(t, parsed.value)
  {
    match parsed
    case None => Update(t, [])
    case Some(r) => UpdateMarker(t, r)
  }

  /** A numeric longitude of 0 is falsy, so without a `long` field the record is dropped. */
  lemma ZeroLongitudeDropped(t: Tracker, r: Inbound)
    requires r.lng == Num(Finite(0.0)) && r.long == Undefined
    ensures UpdateMarker(t, r) == Update(t, [])
  {
  }

  predicate CountMatches(t: Tracker) {
    t.userCount == |t.markers|
  }

  /** With the count in step with the markers, a new ID raises it by exactly one. */
  lemma NewIdCountsOnce(t: Tracker, r: Inbound)
    requires CountMatches(t) && Readable(r) && r.id !in t.markers
    ensures UpdateMarker(t, r).tracker.userCount == t.userCount + 1
    ensures CountMatches(UpdateMarker(t, r).tracker)
  {
  }

  /** A known ID moves its own marker and touches nothing else. */
  lemma KnownIdOnlyMoves(t: Tracker, r: Inbound)
    requires Readable(r) && r.id in t.markers
    ensures var u := UpdateMarker(t, r);
      && u.effects == []
      && u.tracker.markers.Keys == t.markers.Keys
      && u.tracker.userCount == t.userCount
      && u.tracker.userZoomed == t.userZoomed
      && (forall k :: k in t.markers && k != r.id ==> u.tracker.markers[k] == t.markers[k])
      && u.tracker.markers[r.id].lat == Latitude(r) && u.tracker.markers[r.id].lng == Longitude(r)
  {
  }

  /** Records handled in order, effects concatenated in order. */
  function Replay(t: Tracker, rs: seq<Inbound>): Update
    decreases |rs|
  {
    if |rs| == 0 then Update(t, [])
    else
      var first := UpdateMarker(t, rs[0]);
      var rest := Replay(first.tracker, rs[1..]);
      Update(rest.tracker, first.effects + rest.effects)
  }

  lemma {:induction false} ReplayKeepsCount(t: Tracker, rs: seq<Inbound>)
    requires CountMatches(t)
    ensures CountMatches(Replay(t, rs).tracker)
    decreases |rs|
  {
    if |rs| > 0 {
      ReplayKeepsCount(UpdateMarker(t, rs[0]).tracker, rs[1..]);
    }
  }

  /** Markers are never removed, and the local user is never un-zoomed. */
  lemma {:induction false} ReplayOnlyGrows(t: Tracker, rs: seq<Inbound>)
    ensures t.markers.Keys <= Replay(t, rs).tracker.markers.Keys
    ensures t.userZoomed ==> Replay(t, rs).tracker.userZoomed
    ensures Replay(t, rs).tracker.userId == t.userId
    decreases |rs|
  {
    if |rs| > 0 {
      ReplayOnlyGrows(UpdateMarker(t, rs[0]).tracker, rs[1..]);
    }
  }

  /** However many records arrive, the map recenters at most once per session. */
  lemma {:induction false} RecenterAtMostOnce(t: Tracker, rs: seq<Inbound>)
    ensures Count(Replay(t, rs).effects, IsRecenter) <= (if t.userZoomed then 0 else 1)
    decreases |rs|
  {
    if |rs| > 0 {
      var first := UpdateMarker(t, rs[0]);
      var rest := Replay(first.tracker, rs[1..]);
      RecenterAtMostOnce(first.tracker, rs[1..]);
      CountAppend(first.effects, rest.effects, IsRecenter);
      if first.effects != [] {
        assert Count(first.effects, IsRecenter) == Count([], IsRecenter) + (if IsRecenter(first.effects[0]) then 1 else 0);
      }
    }
  }

  /** The local user's first readable record recenters the map when it has not been zoomed yet. */
  lemma SelfFirstRecordRecenters(t: Tracker, r: Inbound)
    requires Readable(r) && r.id == t.userId && r.id !in t.markers && !t.userZoomed
    ensures UpdateMarker(t, r).effects == [Recenter(Latitude(r), Longitude(r), RecenterZoom)]
    ensures UpdateMarker(t, r).tracker.userZoomed
  {
  }
}
