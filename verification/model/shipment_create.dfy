/**
 * The shipment form (ShipmentCreate.jsx): the form state, the parcel list
 * editor and the client dropdown.
 */
module ShipmentCreate {
  import opened Wrappers
  import opened Seqs

  /** One parcel row; the inputs hold text until the form is posted. */
  datatype ParcelDraft = ParcelDraft(weightKg: string, lengthCm: string, widthCm: string, heightCm: string)

  datatype ParcelField = WeightKg | LengthCm | WidthCm | HeightCm

  /** `{ weight_kg: '', length_cm: '', width_cm: '', height_cm: '' }`. */
  const EmptyParcel := ParcelDraft("", "", "", "")

  datatype Place = Place(city: string, country: string)

  function Get(p: ParcelDraft, field: ParcelField): string
  {
    match field
    case WeightKg => p.weightKg
    case LengthCm => p.lengthCm
    case WidthCm => p.widthCm
    case HeightCm => p.heightCm
  }

  /** `parcel[field] = value`. */
  function WithField(p: ParcelDraft, field: ParcelField, value: string): (q: ParcelDraft)
    ensures Get(q, field) == value
    ensures forall other :: other != field ==> Get(q, other) == Get(p, other)
  {
    match field
    case WeightKg => p.(weightKg := value)
    case LengthCm => p.(lengthCm := value)
    case WidthCm => p.(widthCm := value)
    case HeightCm => p.(heightCm := value)
  }

  /** `formData` and the handlers that replace it. */
  class ShipmentForm {
    var clientId: string
    var origin: Place
    var destination: Place
    var serviceType: string
    var parcels: seq<ParcelDraft>

    /** The form can always be submitted with at least one parcel row. */
    predicate HasParcel()
      reads this
    {
      |parcels| >= 1
    }

    /** The initial form: empty fields, STANDARD service and one empty parcel. */
    constructor()
      ensures clientId == "" && origin == Place("", "") && destination == Place("", "")
      ensures serviceType == "STANDARD"
      ensures parcels == [EmptyParcel]
      ensures HasParcel()
    {
      clientId := "";
      origin := Place("", "");
      destination := Place("", "");
      serviceType := "STANDARD";
      parcels := [EmptyParcel];
    }

    /** `addParcel`: one empty parcel at the end; nothing else changes. */
    method AddParcel()
      modifies this
      ensures parcels == old(parcels) + [EmptyParcel]
      ensures clientId == old(clientId) && origin == old(origin) && destination == old(destination)
      ensures serviceType == old(serviceType)
      ensures old(HasParcel()) ==> HasParcel()
    {
      parcels := parcels + [EmptyParcel];
    }

    /** `removeParcel(index)`: every position but `index`, in order; an index out of range changes nothing. */
    method RemoveParcel(index: int)
      modifies this
      ensures 0 <= index < |old(parcels)| ==> parcels == old(parcels)[..index] + old(parcels)[index + 1..]
      ensures !(0 <= index < |old(parcels)|) ==> parcels == old(parcels)
      ensures clientId == old(clientId) && origin == old(origin) && destination == old(destination)
      ensures serviceType == old(serviceType)
    {
      parcels := DropIndex(parcels, index);
    }

    /**
     * The trash button, which the page draws only for rows after the first:
     * through it the list never becomes empty.
     */
    method ClickRemove(index: int)
      requires 0 < index < |parcels|
      modifies this
      ensures |parcels| == |old(parcels)| - 1
      ensures parcels[0] == old(parcels)[0]
      ensures HasParcel()
    {
      RemoveParcel(index);
    }

    /** `handleParcelChange(index, field, value)`: only that field of that parcel changes. */
    method HandleParcelChange(index: nat, field: ParcelField, value: string)
      requires index < |parcels|
      modifies this
      ensures |parcels| == |old(parcels)|
      ensures Get(parcels[index], field) == value
      ensures forall other :: other != field ==> Get(parcels[index], other) == Get(old(parcels)[index], other)
      ensures forall i :: 0 <= i < |parcels| && i != index ==> parcels[i] == old(parcels)[i]
      ensures clientId == old(clientId) && origin == old(origin) && destination == old(destination)
      ensures serviceType == old(serviceType)
      ensures old(HasParcel()) ==> HasParcel()
    {
      parcels := parcels[index := WithField(parcels[index], field, value)];
    }
  }

  /** A user from the users endpoint; `role` may be missing. */
  datatype ApiUser = ApiUser(id: nat, username: string, role: Option<string>)

  predicate IsClient(u: ApiUser)
  {
    u.role == Some("CLIENT")
  }

  /** The client dropdown: the fetched users whose role is CLIENT. */
  function ClientOptions(users: seq<ApiUser>): (r: seq<ApiUser>)
    ensures |r| <= |users|
  {
    Filter(users, IsClient)
  }

  /** The dropdown lists exactly the CLIENT users, in the order the API returned them. */
  lemma ClientOptionsExactly(users: seq<ApiUser>, u: ApiUser)
    ensures u in ClientOptions(users) <==> u in users && u.role == Some("CLIENT")
    ensures IsSubsequence(ClientOptions(users), users)
  {
    FilterKeepsExactly(users, IsClient, u);
    FilterIsSubsequence(users, IsClient);
  }
}
