/**
  The booking record filled during a call (core/prompt.py): ten fields, nine of
  which start out as `None`, and a confirmation status that starts as "pending".
  The record is a value (`Record`) for the extraction logic and an object
  (`BookingData`) whose fields the agent updates in place.
 */
module Booking {
  import opened Wrappers

  const Pending := "pending"
  const Confirmed := "confirmed"
  const NotInterested := "not_interested"

  /** The attribute names `update_field` accepts, as a tagged union. */
  datatype Field =
    | CustomerName | Contact | LeadSource | PickupLocation | DropLocation
    | VehicleType | BodyType | GoodsType | TripDate | ConfirmationStatus

  datatype Record = Record(
    customerName: Option<string>,
    contact: Option<string>,
    leadSource: Option<string>,
    pickupLocation: Option<string>,
    dropLocation: Option<string>,
    vehicleType: Option<string>,
    bodyType: Option<string>,
    goodsType: Option<string>,
    tripDate: Option<string>,
    confirmationStatus: string)

  /** The record a new `BookingData()` holds. */
  function Fresh(): (r: Record)
    ensures forall f :: f != ConfirmationStatus ==> Get(r, f) == None
    ensures r.confirmationStatus == Pending
  {
    Record(None, None, None, None, None, None, None, None, None, Pending)
  }

  /** The attribute name of each field. */
  function FieldName(f: Field): string {
    match f
    case CustomerName => "customer_name"
    case Contact => "contact"
    case LeadSource => "lead_source"
    case PickupLocation => "pickup_location"
    case DropLocation => "drop_location"
    case VehicleType => "vehicle_type"
    case BodyType => "body_type"
    case GoodsType => "goods_type"
    case TripDate => "trip_date"
    case ConfirmationStatus => "confirmation_status"
  }

  /** `hasattr(self, name)` restricted to the ten data attributes. */
  function FieldOf(name: string): Option<Field> {
    if name == "customer_name" then Some(CustomerName)
    else if name == "contact" then Some(Contact)
    else if name == "lead_source" then Some(LeadSource)
    else if name == "pickup_location" then Some(PickupLocation)
    else if name == "drop_location" then Some(DropLocation)
    else if name == "vehicle_type" then Some(VehicleType)
    else if name == "body_type" then Some(BodyType)
    else if name == "goods_type" then Some(GoodsType)
    else if name == "trip_date" then Some(TripDate)
    else if name == "confirmation_status" then Some(ConfirmationStatus)
    else None
  }

  /** Field names and tags are in one-to-one correspondence. */
  lemma FieldNameRoundTrip(f: Field, name: string)
    ensures FieldOf(FieldName(f)) == Some(f)
    ensures FieldOf(name) == Some(f) ==> FieldName(f) == name
  {
  }

  /** `getattr(self, field)`; the status is always present. */
  function Get(r: Record, f: Field): Option<string> {
    match f
    case CustomerName => r.customerName
    case Contact => r.contact
    case LeadSource => r.leadSource
    case PickupLocation => r.pickupLocation
    case DropLocation => r.dropLocation
    case VehicleType => r.vehicleType
    case BodyType => r.bodyType
    case GoodsType => r.goodsType
    case TripDate => r.tripDate
    case ConfirmationStatus => Some(r.confirmationStatus)
  }

  /** `setattr(self, field, value)` */
  function Set(r: Record, f: Field, v: string): Record {
    match f
    case CustomerName => r.(customerName := Some(v))
    case Contact => r.(contact := Some(v))
    case LeadSource => r.(leadSource := Some(v))
    case PickupLocation => r.(pickupLocation := Some(v))
    case DropLocation => r.(dropLocation := Some(v))
    case VehicleType => r.(vehicleType := Some(v))
    case BodyType => r.(bodyType := Some(v))
    case GoodsType => r.(goodsType := Some(v))
    case TripDate => r.(tripDate := Some(v))
    case ConfirmationStatus => r.(confirmationStatus := v)
  }

  /** `update_field(name, value)`: sets the named attribute; an unknown name changes nothing. */
  function Updated(r: Record, name: string, value: string): Record {
    match FieldOf(name)
    case Some(f) => Set(r, f, value)
    case None => r
  }

  /** Only the named field changes, and it then holds the value; an unknown
      name is a no-op. */
  lemma UpdatedOnlyNamed(r: Record, name: string, value: string, g: Field)
    ensures Get(Updated(r, name, value), g) == if FieldOf(name) == Some(g) then Some(value) else Get(r, g)
    ensures FieldOf(name) == None ==> Updated(r, name, value) == r
  {
  }

  /** `REQUIRED_FIELDS`, in its declaration order: attribute and label. */
  const RequiredFields: seq<(Field, string)> := [
    (PickupLocation, "Pickup Location (City / Area / Full Address)"),
    (DropLocation, "Drop Location"),
    (VehicleType, "Vehicle Type (Truck or specific vehicle model)"),
    (BodyType, "Body Type (Open or Container)"),
    (GoodsType, "Goods/Material Type (e.g., cement, FMCG, machinery)"),
    (TripDate, "Trip Date (Required date of the trip)")
  ]

  /** The labels of the entries of `required` whose field is `None`, in order. */
  function MissingLabels(r: Record, required: seq<(Field, string)>): seq<string>
    decreases |required|
  {
    if required == [] then []
    else
      (if Get(r, required[0].0) == None then [required[0].1] else [])
      + MissingLabels(r, required[1..])
  }

  /** The labels keep the order of the table: the labels missing from a
      concatenation are those missing from each part, in turn. */
  lemma {:induction false} MissingLabelsAppend(r: Record, a: seq<(Field, string)>, b: seq<(Field, string)>)
    ensures MissingLabels(r, a + b) == MissingLabels(r, a) + MissingLabels(r, b)
    decreases |a|
  {
    if a == [] {
      assert a + b == b;
    } else {
      assert (a + b)[0] == a[0] && (a + b)[1..] == a[1..] + b;
      MissingLabelsAppend(r, a[1..], b);
    }
  }

  /** A label is reported exactly when its field is `None`, and no more labels
      than the table holds are reported. */
  lemma {:induction false} MissingLabelsExact(r: Record, required: seq<(Field, string)>, i: nat)
    requires i < |required|
    requires forall j :: 0 <= j < |required| && j != i ==> required[j].1 != required[i].1
    ensures required[i].1 in MissingLabels(r, required) <==> Get(r, required[i].0) == None
    ensures |MissingLabels(r, required)| <= |required|
    decreases |required|
  {
    MissingLabelsBound(r, required);
    if i == 0 {
      MissingLabelsFrom(r, required[1..], required[0].1);
    } else {
      MissingLabelsExact(r, required[1..], i - 1);
    }
  }

  lemma {:induction false} MissingLabelsBound(r: Record, required: seq<(Field, string)>)
    ensures |MissingLabels(r, required)| <= |required|
    decreases |required|
  {
    if required != [] {
      MissingLabelsBound(r, required[1..]);
    }
  }

  /** A label absent from the table is never reported. */
  lemma {:induction false} MissingLabelsFrom(r: Record, required: seq<(Field, string)>, lbl: string)
    requires forall j :: 0 <= j < |required| ==> required[j].1 != lbl
    ensures lbl !in MissingLabels(r, required)
    decreases |required|
  {
    if required != [] {
      MissingLabelsFrom(r, required[1..], lbl);
    }
  }

  /** The six required labels are distinct, so each is reported exactly when
      its field is `None`, and at most six are reported. */
  lemma MissingFieldsExact(r: Record, i: nat)
    requires i < |RequiredFields|
    ensures RequiredFields[i].1 in MissingLabels(r, RequiredFields) <==> Get(r, RequiredFields[i].0) == None
    ensures |MissingLabels(r, RequiredFields)| <= 6
  {
    MissingLabelsExact(r, RequiredFields, i);
  }

  /** Python truthiness of an optional string: present and non-empty. */
  predicate Truthy(o: Option<string>) {
    o.Some? && o.value != ""
  }

  /** `is_complete()`: the six required fields are all truthy. */
  predicate Complete(r: Record) {
    && Truthy(r.pickupLocation) && Truthy(r.dropLocation) && Truthy(r.vehicleType)
    && Truthy(r.bodyType) && Truthy(r.goodsType) && Truthy(r.tripDate)
  }

  /** Completeness does not depend on the name, the contact, the lead source or
      the status. */
  lemma CompleteIgnoresOptionalFields(r: Record, f: Field, v: string)
    requires f in {CustomerName, Contact, LeadSource, ConfirmationStatus}
    ensures Complete(Set(r, f, v)) == Complete(r)
  {
  }

  /** A complete record has no missing fields; a record with no missing fields
      that is not complete holds an empty string in a required field. */
  lemma CompleteVersusMissing(r: Record)
    ensures Complete(r) ==> MissingLabels(r, RequiredFields) == []
    ensures MissingLabels(r, RequiredFields) == [] && !Complete(r) ==>
      exists i :: 0 <= i < |RequiredFields| && Get(r, RequiredFields[i].0) == Some("")
  {
    if MissingLabels(r, RequiredFields) == [] && !Complete(r) {
      forall i | 0 <= i < |RequiredFields|
        ensures Get(r, RequiredFields[i].0) != None
      {
        MissingFieldsExact(r, i);
      }
      assert Get(r, RequiredFields[0].0) != None;
      if r.pickupLocation == Some("") {
        assert Get(r, RequiredFields[0].0) == Some("");
      } else if r.dropLocation == Some("") {
        assert Get(r, RequiredFields[1].0) == Some("");
      } else if r.vehicleType == Some("") {
        assert Get(r, RequiredFields[2].0) == Some("");
      } else if r.bodyType == Some("") {
        assert Get(r, RequiredFields[3].0) == Some("");
      } else if r.goodsType == Some("") {
        assert Get(r, RequiredFields[4].0) == Some("");
      } else {
        assert Get(r, RequiredFields[1].0) != None && Get(r, RequiredFields[2].0) != None;
        assert Get(r, RequiredFields[3].0) != None && Get(r, RequiredFields[4].0) != None;
        assert Get(r, RequiredFields[5].0) != None;
        assert Get(r, RequiredFields[5].0) == Some("");
      }
    }
  }

  /** `is_complete()` tests the same six fields `REQUIRED_FIELDS` lists. */
  lemma CompleteByTable(r: Record)
    ensures Complete(r) <==> forall i :: 0 <= i < |RequiredFields| ==> Truthy(Get(r, RequiredFields[i].0))
  {
    assert RequiredFields[0].0 == PickupLocation && RequiredFields[1].0 == DropLocation;
    assert RequiredFields[2].0 == VehicleType && RequiredFields[3].0 == BodyType;
    assert RequiredFields[4].0 == GoodsType && RequiredFields[5].0 == TripDate;
  }

  /** `to_dict()`: each attribute name mapped to its value; the status maps to
      its string. */
  function AsDict(r: Record): map<string, Option<string>> {
    map[
      "customer_name" := r.customerName,
      "contact" := r.contact,
      "lead_source" := r.leadSource,
      "pickup_location" := r.pickupLocation,
      "drop_location" := r.dropLocation,
      "vehicle_type" := r.vehicleType,
      "body_type" := r.bodyType,
      "goods_type" := r.goodsType,
      "trip_date" := r.tripDate,
      "confirmation_status" := Some(r.confirmationStatus)]
  }

  /** The dictionary has exactly the ten attribute names as keys, and reading
      a key gives back that field. */
  lemma AsDictReadBack(r: Record, f: Field, key: string)
    ensures key in AsDict(r) <==> FieldOf(key).Some?
    ensures FieldName(f) in AsDict(r) && AsDict(r)[FieldName(f)] == Get(r, f)
  {
  }

  class BookingData {
    var customerName: Option<string>
    var contact: Option<string>
    var leadSource: Option<string>
    var pickupLocation: Option<string>
    var dropLocation: Option<string>
    var vehicleType: Option<string>
    var bodyType: Option<string>
    var goodsType: Option<string>
    var tripDate: Option<string>
    var confirmationStatus: string

    /** The object's fields as a record value. */
    function Snapshot(): Record
      reads this
    {
      Record(customerName, contact, leadSource, pickupLocation, dropLocation,
             vehicleType, bodyType, goodsType, tripDate, confirmationStatus)
    }

    constructor ()
      ensures Snapshot() == Fresh()
    {
      customerName, contact, leadSource := None, None, None;
      pickupLocation, dropLocation := None, None;
      vehicleType, bodyType, goodsType, tripDate := None, None, None, None;
      confirmationStatus := Pending;
    }

    method UpdateField(field: string, value: string)
      modifies this
      ensures Snapshot() == Updated(old(Snapshot()), field, value)
    {
      match FieldOf(field)
      case Some(CustomerName) => customerName := Some(value);
      case Some(Contact) => contact := Some(value);
      case Some(LeadSource) => leadSource := Some(value);
      case Some(PickupLocation) => pickupLocation := Some(value);
      case Some(DropLocation) => dropLocation := Some(value);
      case Some(VehicleType) => vehicleType := Some(value);
      case Some(BodyType) => bodyType := Some(value);
      case Some(GoodsType) => goodsType := Some(value);
      case Some(TripDate) => tripDate := Some(value);
      case Some(ConfirmationStatus) => confirmationStatus := value;
      case None =>
    }

    /** Writes every field at once. */
    method Store(r: Record)
      modifies this
      ensures Snapshot() == r
    {
      customerName, contact, leadSource := r.customerName, r.contact, r.leadSource;
      pickupLocation, dropLocation := r.pickupLocation, r.dropLocation;
      vehicleType, bodyType, goodsType, tripDate := r.vehicleType, r.bodyType, r.goodsType, r.tripDate;
      confirmationStatus := r.confirmationStatus;
    }

    method GetMissingFields() returns (missing: seq<string>)
      ensures missing == MissingLabels(Snapshot(), RequiredFields)
    {
      missing := [];
      for i := 0 to |RequiredFields|
        invariant missing == MissingLabels(Snapshot(), RequiredFields[..i])
      {
        if Get(Snapshot(), RequiredFields[i].0) == None {
          missing := missing + [RequiredFields[i].1];
        }
        MissingLabelsAppend(Snapshot(), RequiredFields[..i], [RequiredFields[i]]);
        assert RequiredFields[..i + 1] == RequiredFields[..i] + [RequiredFields[i]];
      }
      assert RequiredFields[..|RequiredFields|] == RequiredFields;
    }

    /** `is_complete()`: every field of `REQUIRED_FIELDS` holds a non-empty
        value, and then none of them is reported missing. */
    function IsComplete(): (r: bool)
      reads this
      ensures r <==> forall i :: 0 <= i < |RequiredFields| ==> Truthy(Get(Snapshot(), RequiredFields[i].0))
      ensures r ==> MissingLabels(Snapshot(), RequiredFields) == []
    {
      CompleteByTable(Snapshot());
      CompleteVersusMissing(Snapshot());
      Complete(Snapshot())
    }

    /** `to_dict()`: exactly the ten attribute names as keys, each mapped to
        the current value of its field. */
    function ToDict(): (d: map<string, Option<string>>)
      reads this
      ensures forall key :: key in d <==> FieldOf(key).Some?
      ensures forall f: Field :: FieldName(f) in d && d[FieldName(f)] == Get(Snapshot(), f)
    {
      AsDict(Snapshot())
    }
  }
}
