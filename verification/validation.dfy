/**
  The server's record validator: an ordered chain of checks on an incoming
  location record, with one controlled mutation (an empty device type becomes
  "Unknown"). Lengths are byte lengths, as Go's `len` counts bytes.
 */
module Validation {

  import opened Options
  import opened Floats
  import opened Bytes

  /** An abstract clock reading; the server stamps records when they are read. */
  type Timestamp = nat

  datatype LocationData = LocationData(
    id: seq<byte>,
    lat: Float,
    lng: Float,
    deviceType: seq<byte>,
    timestamp: Timestamp)

  const MaxIdBytes := 100
  const MaxDeviceTypeBytes := 50
  const UnknownDevice: seq<byte> := Ascii("Unknown")

  datatype ValidationError =
    | IdRequired
    | IdTooLong
    | InvalidLatitude
    | InvalidLongitude
    | DeviceTypeTooLong
  {
    function Message(): string {
      match this
      case IdRequired => "user ID is required"
      case IdTooLong => "user ID is too long"
      case InvalidLatitude => "invalid latitude"
      case InvalidLongitude => "invalid longitude"
      case DeviceTypeTooLong => "device type is too long"
    }

    /** Position of the check reporting this error in the validator's fixed order. */
    function Rank(): nat {
      match this
      case IdRequired => 0
      case IdTooLong => 1
      case InvalidLatitude => 2
      case InvalidLongitude => 3
      case DeviceTypeTooLong => 4
    }
  }

  /**
    The coordinate check, written as Go evaluates it: NaN and infinity tests
    followed by two IEEE comparisons. Latitude and longitude share it, so both
    accept the range [-180, 180].
   */
  function IsValidCoordinate(c: Float): (ok: bool)
    ensures ok <==> c.Finite? && -180.0 <= c.value <= 180.0
  {
    !IsNaN(c) && !IsInf(c) && AtLeast(c, -180.0) && AtMost(c, 180.0)
  }

  /** The NaN and infinity tests are redundant: the two comparisons already reject those values. */
  lemma RangeComparisonsSuffice(c: Float)
    ensures IsValidCoordinate(c) <==> AtLeast(c, -180.0) && AtMost(c, 180.0)
  {
  }

  function DefaultDeviceType(deviceType: seq<byte>): (r: seq<byte>)
    ensures |r| > 0
    ensures |deviceType| == 0 ==> r == UnknownDevice
    ensures |deviceType| > 0 ==> r == deviceType
  {
    if |deviceType| == 0 then UnknownDevice else deviceType
  }

  /**
    Each check on its own, independent of the order they run in. The device
    type check sees the device type after defaulting.
   */
  predicate Fails(d: LocationData, e: ValidationError) {
    match e
    case IdRequired => |d.id| == 0
    case IdTooLong => |d.id| > MaxIdBytes
    case InvalidLatitude => !IsValidCoordinate(d.lat)
    case InvalidLongitude => !IsValidCoordinate(d.lng)
    case DeviceTypeTooLong => |DefaultDeviceType(d.deviceType)| > MaxDeviceTypeBytes
  }

  /** `e` is the error of the first check, in the fixed order, that `d` fails. */
  predicate FirstFailure(d: LocationData, e: ValidationError) {
    Fails(d, e) && forall e': ValidationError :: e'.Rank() < e.Rank() ==> !Fails(d, e')
  }

  /** What every record the validator lets through satisfies. */
  predicate Accepted(d: LocationData) {
    && 0 < |d.id| <= MaxIdBytes
    && IsValidCoordinate(d.lat)
    && IsValidCoordinate(d.lng)
    && 0 < |d.deviceType| <= MaxDeviceTypeBytes
  }

  /** The record as the caller sees it afterwards (it is passed by reference), and the error returned. */
  datatype Checked = Checked(record: LocationData, error: Option<ValidationError>)

  function ValidateLocationData(d: LocationData): (r: Checked)
    ensures forall e: ValidationError :: r.error == Some(e) <==> FirstFailure(d, e)
    ensures r.error == None <==> forall e: ValidationError :: !Fails(d, e)
    ensures r.error != None ==> r.record == d
    ensures r.error == None ==> r.record == d.(deviceType := DefaultDeviceType(d.deviceType))
    ensures r.error == None ==> Accepted(r.record)
  {
    if |d.id| == 0 then
      assert Fails(d, IdRequired) && IdRequired.Rank() == 0;
      Checked(d, Some(IdRequired))
    else if |d.id| > MaxIdBytes then
      assert Fails(d, IdTooLong) && IdTooLong.Rank() == 1;
      Checked(d, Some(IdTooLong))
    else if !IsValidCoordinate(d.lat) then
      assert Fails(d, InvalidLatitude) && InvalidLatitude.Rank() == 2;
      Checked(d, Some(InvalidLatitude))
    else if !IsValidCoordinate(d.lng) then
      assert Fails(d, InvalidLongitude) && InvalidLongitude.Rank() == 3;
      Checked(d, Some(InvalidLongitude))
    else
      var d' := if |d.deviceType| == 0 then d.(deviceType := UnknownDevice) else d;
      if |d'.deviceType| > MaxDeviceTypeBytes then Checked(d', Some(DeviceTypeTooLong))
      else Checked(d', None)
  }

  /** The validator never touches the identity, the coordinates or the timestamp. */
  lemma ValidatePreservesFields(d: LocationData)
    ensures var r := ValidateLocationData(d).record;
      r.id == d.id && r.lat == d.lat && r.lng == d.lng && r.timestamp == d.timestamp
  {
  }

  /** Acceptance is exactly the conjunction of the checks, with the device type defaulted. */
  lemma ValidateAcceptsExactly(d: LocationData)
    ensures ValidateLocationData(d).error == None
        <==> Accepted(d.(deviceType := DefaultDeviceType(d.deviceType)))
  {
  }

  /** An already accepted record passes again and comes back unchanged. */
  lemma AcceptedIsFixedPoint(d: LocationData)
    requires Accepted(d)
    ensures ValidateLocationData(d) == Checked(d, None)
  {
  }

  /** Validating twice is validating once. */
  lemma ValidateIdempotent(d: LocationData)
    requires ValidateLocationData(d).error == None
    ensures ValidateLocationData(ValidateLocationData(d).record) == ValidateLocationData(d)
  {
    AcceptedIsFixedPoint(ValidateLocationData(d).record);
  }

  /** An empty device type is defaulted to "Unknown", which always fits the 50-byte limit. */
  lemma EmptyDeviceTypeDefaulted(d: LocationData)
    requires 0 < |d.id| <= MaxIdBytes && IsValidCoordinate(d.lat) && IsValidCoordinate(d.lng)
    requires |d.deviceType| == 0
    ensures ValidateLocationData(d) == Checked(d.(deviceType := UnknownDevice), None)
  {
  }

  /** Latitude is held to the longitude range, so a latitude of 120 degrees is accepted. */
  lemma LatitudeUsesLongitudeRange(d: LocationData)
    requires 0 < |d.id| <= MaxIdBytes && 0 < |d.deviceType| <= MaxDeviceTypeBytes
    requires d.lat == Finite(120.0) && d.lng == Finite(0.0)
    ensures ValidateLocationData(d).error == None
  {
  }
}
