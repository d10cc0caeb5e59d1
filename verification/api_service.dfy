/**
  The web client's calls to the backend: the multipart form that carries a
  membership application, and the error messages the zone and application
  requests raise.
*/
module ApiService {
  import opened Wrappers
  import Browser

  // ---------------------------------------------------------------------------
  // The application as the join page hands it over

  /** `MembershipApplicationData`. The six fields the form encodes with `|| ''` are
      optional here (`None` stands for `undefined` or `null`); the others are
      always present. */
  datatype ApplicationData = ApplicationData(
    profilePhoto: Option<Browser.File>,
    fullName: string,
    email: Option<string>,
    phone: string,
    alternativePhone: Option<string>,
    dateOfBirth: string,
    bloodGroup: string,
    profession: string,
    hobbies: Option<string>,
    idDocumentType: string,
    idDocumentNumber: string,
    idDocumentPhoto: Option<Browser.File>,
    holdingIdPhoto: Option<Browser.File>,
    address: string,
    zone: string,
    emergencyContact: string,
    emergencyPhone: string,
    hasMotorbike: bool,
    motorcycleBrand: Option<string>,
    motorcycleModel: Option<string>,
    motorcycleYear: Option<string>,
    ridingExperience: string,
    agreeTerms: bool,
    citizenshipConfirm: bool)

  // ---------------------------------------------------------------------------
  // Form parts

  /** The parts of the application form. */
  datatype FormKey =
    | FullName | Email | Phone | AlternativePhone | DateOfBirth | BloodGroup | Profession
    | Hobbies | Address | Zone | IdDocumentType | IdDocumentNumber | EmergencyContact
    | EmergencyPhone | HasMotorbike | MotorcycleBrand | MotorcycleModel | MotorcycleYear
    | RidingExperience | CitizenshipConfirm | AgreeTerms
    | ProfilePhoto | IdDocumentPhoto | HoldingIdPhoto

  /** The name each part has on the wire. */
  function KeyName(k: FormKey): string {
    match k
    case FullName => "full_name"
    case Email => "email"
    case Phone => "phone"
    case AlternativePhone => "alternative_phone"
    case DateOfBirth => "date_of_birth"
    case BloodGroup => "blood_group"
    case Profession => "profession"
    case Hobbies => "hobbies"
    case Address => "address"
    case Zone => "zone"
    case IdDocumentType => "id_document_type"
    case IdDocumentNumber => "id_document_number"
    case EmergencyContact => "emergency_contact"
    case EmergencyPhone => "emergency_phone"
    case HasMotorbike => "has_motorbike"
    case MotorcycleBrand => "motorcycle_brand"
    case MotorcycleModel => "motorcycle_model"
    case MotorcycleYear => "motorcycle_year"
    case RidingExperience => "riding_experience"
    case CitizenshipConfirm => "citizenship_confirm"
    case AgreeTerms => "agree_terms"
    case ProfilePhoto => "profile_photo"
    case IdDocumentPhoto => "id_document_photo"
    case HoldingIdPhoto => "holding_id_photo"
  }

  /** No two parts share a wire name. */
  lemma KeyNamesDistinct(a: FormKey, b: FormKey)
    ensures KeyName(a) == KeyName(b) ==> a == b
  {
  }

  /** The parts that carry a photo. */
  predicate IsFileKey(k: FormKey) {
    k == ProfilePhoto || k == IdDocumentPhoto || k == HoldingIdPhoto
  }

  /** The text parts, in the order they are appended. */
  const TextKeys: seq<FormKey> := [
    FullName, Email, Phone, AlternativePhone, DateOfBirth, BloodGroup, Profession,
    Hobbies, Address, Zone, IdDocumentType, IdDocumentNumber, EmergencyContact,
    EmergencyPhone, HasMotorbike, MotorcycleBrand, MotorcycleModel, MotorcycleYear,
    RidingExperience, CitizenshipConfirm, AgreeTerms]

  /** What a part holds: text, or a file. */
  datatype PartValue = Text(text: string) | Upload(file: Browser.File)

  datatype Entry = Entry(key: FormKey, value: PartValue)

  /** `Boolean.prototype.toString`. */
  function BoolText(b: bool): (r: string)
    ensures r == "true" <==> b
    ensures r == "false" <==> !b
  {
    if b then "true" else "false"
  }

  /** The two flag values are encoded differently. */
  lemma BoolTextInjective(a: bool, b: bool)
    ensures BoolText(a) == BoolText(b) ==> a == b
  {
  }

  /** The value `data` contributes under `k`, if any: the text fields as given,
      the optional text fields with absence as the empty string, the flags as
      `"true"`/`"false"`, and each photo only when one was chosen. */
  function PartOf(data: ApplicationData, k: FormKey): (r: Option<PartValue>)
    ensures r.None? ==> IsFileKey(k)
    ensures r.Some? ==> (r.value.Upload? <==> IsFileKey(k))
  {
    match k
    case FullName => Some(Text(data.fullName))
    case Email => Some(Text(data.email.GetOr("")))
    case Phone => Some(Text(data.phone))
    case AlternativePhone => Some(Text(data.alternativePhone.GetOr("")))
    case DateOfBirth => Some(Text(data.dateOfBirth))
    case BloodGroup => Some(Text(data.bloodGroup))
    case Profession => Some(Text(data.profession))
    case Hobbies => Some(Text(data.hobbies.GetOr("")))
    case Address => Some(Text(data.address))
    case Zone => Some(Text(data.zone))
    case IdDocumentType => Some(Text(data.idDocumentType))
    case IdDocumentNumber => Some(Text(data.idDocumentNumber))
    case EmergencyContact => Some(Text(data.emergencyContact))
    case EmergencyPhone => Some(Text(data.emergencyPhone))
    case HasMotorbike => Some(Text(BoolText(data.hasMotorbike)))
    case MotorcycleBrand => Some(Text(data.motorcycleBrand.GetOr("")))
    case MotorcycleModel => Some(Text(data.motorcycleModel.GetOr("")))
    case MotorcycleYear => Some(Text(data.motorcycleYear.GetOr("")))
    case RidingExperience => Some(Text(data.ridingExperience))
    case CitizenshipConfirm => Some(Text(BoolText(data.citizenshipConfirm)))
    case AgreeTerms => Some(Text(BoolText(data.agreeTerms)))
    case ProfilePhoto => if data.profilePhoto.Some? then Some(Upload(data.profilePhoto.value)) else None
    case IdDocumentPhoto => if data.idDocumentPhoto.Some? then Some(Upload(data.idDocumentPhoto.value)) else None
    case HoldingIdPhoto => if data.holdingIdPhoto.Some? then Some(Upload(data.holdingIdPhoto.value)) else None
  }

  /** `FormData.get`: the value of the first part named `key`. */
  function Find(entries: seq<Entry>, key: FormKey): (r: Option<PartValue>)
    ensures r.None? <==> forall i :: 0 <= i < |entries| ==> entries[i].key != key
    ensures r.Some? ==> exists i :: 0 <= i < |entries| && entries[i] == Entry(key, r.value)
  {
    if entries == [] then None
    else if entries[0].key == key then Some(entries[0].value)
    else
      var r := Find(entries[1..], key);
      assert forall i :: 0 < i < |entries| ==> entries[i] == entries[1..][i - 1];
      r
  }

  // ---------------------------------------------------------------------------
  // Building the form

  /** A browser `FormData`: its parts in the order they were appended. */
  class FormData {
    var entries: seq<Entry>

    constructor ()
      ensures entries == []
    {
      entries := [];
    }

    /** `FormData.append`: adds a part at the end. */
    method Append(key: FormKey, value: PartValue)
      modifies this
      ensures entries == old(entries) + [Entry(key, value)]
    {
      entries := entries + [Entry(key, value)];
    }
  }

  /** The parts for the photos that were chosen, in the order they are appended. */
  function FileEntries(data: ApplicationData): (r: seq<Entry>)
    ensures |r| <= 3
    ensures forall i :: 0 <= i < |r| ==> r[i].value.Upload? && IsFileKey(r[i].key)
  {
    (if data.profilePhoto.Some? then [Entry(ProfilePhoto, Upload(data.profilePhoto.value))] else [])
    + (if data.idDocumentPhoto.Some? then [Entry(IdDocumentPhoto, Upload(data.idDocumentPhoto.value))] else [])
    + (if data.holdingIdPhoto.Some? then [Entry(HoldingIdPhoto, Upload(data.holdingIdPhoto.value))] else [])
  }

  /** The text parts, in the order they are appended. */
  function TextEntries(data: ApplicationData): (r: seq<Entry>)
    ensures |r| == |TextKeys|
  {
    PersonalEntries(data) + AddressEntries(data) + RidingEntries(data)
  }

  /** The first eight text parts: who the applicant is. */
  function PersonalEntries(data: ApplicationData): seq<Entry> {
    [ Entry(FullName, Text(data.fullName)),
      Entry(Email, Text(data.email.GetOr(""))),
      Entry(Phone, Text(data.phone)),
      Entry(AlternativePhone, Text(data.alternativePhone.GetOr(""))),
      Entry(DateOfBirth, Text(data.dateOfBirth)),
      Entry(BloodGroup, Text(data.bloodGroup)),
      Entry(Profession, Text(data.profession)),
      Entry(Hobbies, Text(data.hobbies.GetOr(""))) ]
  }

  /** The next six text parts: where the applicant lives, the identity document and
      the emergency contact. */
  function AddressEntries(data: ApplicationData): seq<Entry> {
    [ Entry(Address, Text(data.address)),
      Entry(Zone, Text(data.zone)),
      Entry(IdDocumentType, Text(data.idDocumentType)),
      Entry(IdDocumentNumber, Text(data.idDocumentNumber)),
      Entry(EmergencyContact, Text(data.emergencyContact)),
      Entry(EmergencyPhone, Text(data.emergencyPhone)) ]
  }

  /** The last seven text parts: the motorcycle, the riding experience and the two
      confirmations. */
  function RidingEntries(data: ApplicationData): seq<Entry> {
    [ Entry(HasMotorbike, Text(BoolText(data.hasMotorbike))),
      Entry(MotorcycleBrand, Text(data.motorcycleBrand.GetOr(""))),
      Entry(MotorcycleModel, Text(data.motorcycleModel.GetOr(""))),
      Entry(MotorcycleYear, Text(data.motorcycleYear.GetOr(""))),
      Entry(RidingExperience, Text(data.ridingExperience)),
      Entry(CitizenshipConfirm, Text(BoolText(data.citizenshipConfirm))),
      Entry(AgreeTerms, Text(BoolText(data.agreeTerms))) ]
  }

  /** The text parts follow `TextKeys`, each carrying what its field contributes. */
  lemma TextEntriesFollowKeys(data: ApplicationData)
    ensures forall i :: 0 <= i < |TextKeys| ==>
      TextEntries(data)[i].key == TextKeys[i] && Some(TextEntries(data)[i].value) == PartOf(data, TextKeys[i])
  {
    var p, a, r := PersonalEntries(data), AddressEntries(data), RidingEntries(data);
    var t := TextEntries(data);
    PersonalFollowsKeys(data);
    AddressFollowsKeys(data);
    RidingFollowsKeys(data);
    forall i | 0 <= i < |TextKeys|
      ensures t[i].key == TextKeys[i] && Some(t[i].value) == PartOf(data, TextKeys[i])
    {
      if i < |p| {
        assert t[i] == p[i];
      } else if i < |p| + |a| {
        assert t[i] == a[i - |p|];
      } else {
        assert t[i] == r[i - |p| - |a|];
      }
    }
  }

  /** The first group of text parts follows the start of `TextKeys`. */
  lemma PersonalFollowsKeys(data: ApplicationData)
    ensures forall i :: 0 <= i < |PersonalEntries(data)| ==>
      PersonalEntries(data)[i].key == TextKeys[i] && Some(PersonalEntries(data)[i].value) == PartOf(data, TextKeys[i])
  {
  }

  /** The second group of text parts follows `TextKeys` from its ninth key. */
  lemma AddressFollowsKeys(data: ApplicationData)
    ensures forall i :: 0 <= i < |AddressEntries(data)| ==>
      AddressEntries(data)[i].key == TextKeys[8 + i] && Some(AddressEntries(data)[i].value) == PartOf(data, TextKeys[8 + i])
  {
  }

  /** The third group of text parts follows `TextKeys` from its fifteenth key. */
  lemma RidingFollowsKeys(data: ApplicationData)
    ensures forall i :: 0 <= i < |RidingEntries(data)| ==>
      RidingEntries(data)[i].key == TextKeys[14 + i] && Some(RidingEntries(data)[i].value) == PartOf(data, TextKeys[14 + i])
  {
  }

  /** No text part carries a photo's name. */
  lemma TextEntriesNameNoPhoto(data: ApplicationData)
    ensures forall i :: 0 <= i < |TextEntries(data)| ==> !IsFileKey(TextEntries(data)[i].key)
  {
    TextEntriesFollowKeys(data);
  }

  /** The whole form: every text part, then the chosen photos. */
  function ApplicationEntries(data: ApplicationData): (r: seq<Entry>)
    ensures |TextKeys| <= |r| <= |TextKeys| + 3
    ensures forall i :: 0 <= i < |r| ==> (r[i].value.Upload? <==> i >= |TextKeys|)
  {
    TextEntriesFollowKeys(data);
    TextEntries(data) + FileEntries(data)
  }

  /** The first half of `submitMembershipApplication`: appends the 21 text parts in
      order, then a part for each photo that was chosen. */
  method BuildApplicationForm(data: ApplicationData) returns (form: FormData)
    ensures fresh(form)
    ensures form.entries == ApplicationEntries(data)
  {
    form := new FormData();
    AppendPersonal(form, data);
    AppendAddress(form, data);
    AppendRiding(form, data);
    AppendPhotos(form, data);
  }

  /** The appends of the first eight text parts. */
  method AppendPersonal(form: FormData, data: ApplicationData)
    modifies form
    ensures form.entries == old(form.entries) + PersonalEntries(data)
  {
    form.Append(FullName, Text(data.fullName));
    form.Append(Email, Text(data.email.GetOr("")));
    form.Append(Phone, Text(data.phone));
    form.Append(AlternativePhone, Text(data.alternativePhone.GetOr("")));
    form.Append(DateOfBirth, Text(data.dateOfBirth));
    form.Append(BloodGroup, Text(data.bloodGroup));
    form.Append(Profession, Text(data.profession));
    form.Append(Hobbies, Text(data.hobbies.GetOr("")));
  }

  /** The appends of the next six text parts. */
  method AppendAddress(form: FormData, data: ApplicationData)
    modifies form
    ensures form.entries == old(form.entries) + AddressEntries(data)
  {
    form.Append(Address, Text(data.address));
    form.Append(Zone, Text(data.zone));
    form.Append(IdDocumentType, Text(data.idDocumentType));
    form.Append(IdDocumentNumber, Text(data.idDocumentNumber));
    form.Append(EmergencyContact, Text(data.emergencyContact));
    form.Append(EmergencyPhone, Text(data.emergencyPhone));
  }

  /** The appends of the last seven text parts. */
  method AppendRiding(form: FormData, data: ApplicationData)
    modifies form
    ensures form.entries == old(form.entries) + RidingEntries(data)
  {
    form.Append(HasMotorbike, Text(BoolText(data.hasMotorbike)));
    form.Append(MotorcycleBrand, Text(data.motorcycleBrand.GetOr("")));
    form.Append(MotorcycleModel, Text(data.motorcycleModel.GetOr("")));
    form.Append(MotorcycleYear, Text(data.motorcycleYear.GetOr("")));
    form.Append(RidingExperience, Text(data.ridingExperience));
    form.Append(CitizenshipConfirm, Text(BoolText(data.citizenshipConfirm)));
    form.Append(AgreeTerms, Text(BoolText(data.agreeTerms)));
  }

  /** The appends of the photos, each only when one was chosen. */
  method AppendPhotos(form: FormData, data: ApplicationData)
    modifies form
    ensures form.entries == old(form.entries) + FileEntries(data)
  {
    if data.profilePhoto.Some? {
      form.Append(ProfilePhoto, Upload(data.profilePhoto.value));
    }
    if data.idDocumentPhoto.Some? {
      form.Append(IdDocumentPhoto, Upload(data.idDocumentPhoto.value));
    }
    if data.holdingIdPhoto.Some? {
      form.Append(HoldingIdPhoto, Upload(data.holdingIdPhoto.value));
    }
  }

  /** Reading any part back from the form gives what the field contributes: every
      text part is found, and a photo exactly when it was chosen (`EachPartOnce`
      shows no part is appended twice). */
  lemma FormCarriesEveryField(data: ApplicationData, k: FormKey)
    ensures Find(ApplicationEntries(data), k) == PartOf(data, k)
  {
    if IsFileKey(k) {
      FilePartFound(data, k);
    } else {
      TextPartFound(data, k);
    }
  }

  /** Every part is appended at most once: no two entries of the form share a key. */
  lemma EachPartOnce(data: ApplicationData)
    ensures forall i, j :: 0 <= i < j < |ApplicationEntries(data)| ==>
      ApplicationEntries(data)[i].key != ApplicationEntries(data)[j].key
  {
    var t, f, e := TextEntries(data), FileEntries(data), ApplicationEntries(data);
    TextEntriesFollowKeys(data);
    FileKeysDistinct(data);
    forall i, j | 0 <= i < j < |e| ensures e[i].key != e[j].key {
      if j < |t| {
        assert e[i] == t[i] && e[j] == t[j];
        TextKeysDistinct(i, j);
      } else if i < |t| {
        assert e[i] == t[i] && e[j] == f[j - |t|];
      } else {
        assert e[i] == f[i - |t|] && e[j] == f[j - |t|];
      }
    }
  }

  /** No key stands twice in `TextKeys`. */
  lemma TextKeysDistinct(i: nat, j: nat)
    requires i < j < |TextKeys|
    ensures TextKeys[i] != TextKeys[j]
  {
  }

  /** No two photo parts share a key. */
  lemma FileKeysDistinct(data: ApplicationData)
    ensures forall i, j :: 0 <= i < j < |FileEntries(data)| ==> FileEntries(data)[i].key != FileEntries(data)[j].key
  {
  }

  /** A text part is found where `TextKeys` places it. */
  lemma TextPartFound(data: ApplicationData, k: FormKey)
    requires !IsFileKey(k)
    ensures Find(ApplicationEntries(data), k) == PartOf(data, k)
  {
    var t := TextEntries(data);
    var e := ApplicationEntries(data);
    TextEntriesFollowKeys(data);
    var i := TextIndex(k);
    assert forall j :: 0 <= j <= i ==> e[j] == t[j];
    FindAt(e, i, k);
  }

  /** A photo part is found among the photos, behind all the text parts. */
  lemma FilePartFound(data: ApplicationData, k: FormKey)
    requires IsFileKey(k)
    ensures Find(ApplicationEntries(data), k) == PartOf(data, k)
  {
    TextEntriesNameNoPhoto(data);
    FindAfter(TextEntries(data), FileEntries(data), k);
    PhotoFound(data, k);
  }

  /** Among the photo parts, each photo is found exactly when it was chosen. */
  lemma PhotoFound(data: ApplicationData, k: FormKey)
    requires IsFileKey(k)
    ensures Find(FileEntries(data), k) == PartOf(data, k)
  {
    var p, d, h := data.profilePhoto, data.idDocumentPhoto, data.holdingIdPhoto;
    var f1: seq<Entry> := if p.Some? then [Entry(ProfilePhoto, Upload(p.value))] else [];
    var f2: seq<Entry> := if d.Some? then [Entry(IdDocumentPhoto, Upload(d.value))] else [];
    var f3: seq<Entry> := if h.Some? then [Entry(HoldingIdPhoto, Upload(h.value))] else [];
    assert FileEntries(data) == f1 + (f2 + f3);
    if k == ProfilePhoto {
      if p.Some? {
        FindAt(f1 + (f2 + f3), 0, k);
      }
    } else if k == IdDocumentPhoto {
      FindAfter(f1, f2 + f3, k);
      if d.Some? {
        FindAt(f2 + f3, 0, k);
      }
    } else {
      assert f1 + (f2 + f3) == (f1 + f2) + f3;
      FindAfter(f1 + f2, f3, k);
    }
  }

  /** Where a text key stands in `TextKeys`; no earlier key is the same. */
  function TextIndex(k: FormKey): (i: nat)
    requires !IsFileKey(k)
    ensures i < |TextKeys| && TextKeys[i] == k
    ensures forall j :: 0 <= j < i ==> TextKeys[j] != k
  {
    match k
    case FullName => 0
    case Email => 1
    case Phone => 2
    case AlternativePhone => 3
    case DateOfBirth => 4
    case BloodGroup => 5
    case Profession => 6
    case Hobbies => 7
    case Address => 8
    case Zone => 9
    case IdDocumentType => 10
    case IdDocumentNumber => 11
    case EmergencyContact => 12
    case EmergencyPhone => 13
    case HasMotorbike => 14
    case MotorcycleBrand => 15
    case MotorcycleModel => 16
    case MotorcycleYear => 17
    case RidingExperience => 18
    case CitizenshipConfirm => 19
    case AgreeTerms => 20
  }

  /** The first part named `key` is the one found. */
  lemma {:induction false} FindAt(entries: seq<Entry>, i: nat, key: FormKey)
    requires i < |entries| && entries[i].key == key
    requires forall j :: 0 <= j < i ==> entries[j].key != key
    ensures Find(entries, key) == Some(entries[i].value)
  {
    if i > 0 {
      FindAt(entries[1..], i - 1, key);
    }
  }

  /** Parts named otherwise in front do not change what is found. */
  lemma {:induction false} FindAfter(front: seq<Entry>, back: seq<Entry>, key: FormKey)
    requires forall i :: 0 <= i < |front| ==> front[i].key != key
    ensures Find(front + back, key) == Find(back, key)
  {
    if front == [] {
      assert front + back == back;
    } else {
      assert (front + back)[0] == front[0];
      assert (front + back)[1..] == front[1..] + back;
      assert forall i :: 0 <= i < |front[1..]| ==> front[1..][i].key != key by {
        forall i | 0 <= i < |front[1..]| ensures front[1..][i].key != key {
          assert front[1..][i] == front[i + 1];
        }
      }
      FindAfter(front[1..], back, key);
    }
  }

  // ---------------------------------------------------------------------------
  // Request outcomes

  /** The `error` member of a JSON error body, as JavaScript's `||` sees it: absent,
      another falsy value (`null`, `false`, `0`), a string, or a truthy value that is not
      a string, which `new Error` shows as `String(value)`. */
  datatype ErrorField = Absent | Falsy | StringError(text: string) | NonString(shown: string)

  /** The body of a response: not JSON at all, the JSON `null` (whose `error`
      member cannot be read), or any other JSON value, seen through its `error`
      member (`Absent` for a value without one). */
  datatype Body = NotJson | JsonNull | Json(error: ErrorField)

  /** What the client reads of a response: whether it was successful, and its body. */
  datatype Reply = Reply(ok: bool, body: Body)

  /** What a request raises: the rejection of `response.json()` on a body that is not
      JSON, the `TypeError` of reading a member of `null`, or an `Error` with its
      message. */
  datatype Raised = JsonParseFailure | NullMemberRead | Error(message: string)

  const FetchZonesFailure := "Failed to fetch zones"
  const SubmitFailure := "Failed to submit application"

  /** `fetchZones`: a failed response raises the fixed message without reading the
      body; a successful one is parsed as JSON, which rejects a body that is not
      JSON. */
  function FetchZonesError(reply: Reply): (r: Option<Raised>)
    ensures r.None? <==> reply.ok && !reply.body.NotJson?
    ensures !reply.ok ==> r == Some(Error(FetchZonesFailure))
    ensures reply.ok && reply.body.NotJson? ==> r == Some(JsonParseFailure)
  {
    if !reply.ok then Some(Error(FetchZonesFailure))
    else if reply.body.NotJson? then Some(JsonParseFailure)
    else None
  }

  /** `submitMembershipApplication`: the body of every response is parsed as JSON,
      which rejects a body that is not JSON. For a failed response, reading `error`
      of a `null` body throws; otherwise a truthy `error` member is the message and
      the fixed message stands in for a falsy one (the empty string included). */
  function SubmitError(reply: Reply): (r: Option<Raised>)
    ensures r.None? <==> reply.ok && !reply.body.NotJson?
    ensures reply.body.NotJson? ==> r == Some(JsonParseFailure)
    ensures !reply.ok && reply.body.JsonNull? ==> r == Some(NullMemberRead)
    ensures !reply.ok && reply.body.Json? && reply.body.error.StringError? && reply.body.error.text != "" ==>
      r == Some(Error(reply.body.error.text))
    ensures !reply.ok && reply.body.Json? && reply.body.error.NonString? ==> r == Some(Error(reply.body.error.shown))
    ensures !reply.ok && reply.body in {Json(Absent), Json(Falsy), Json(StringError(""))} ==> r == Some(Error(SubmitFailure))
    ensures r.Some? && r.value.Error? && r.value.message == "" ==> reply.body.Json? && reply.body.error.NonString?
  {
    if reply.ok then (if reply.body.NotJson? then Some(JsonParseFailure) else None)
    else match reply.body
      case NotJson => Some(JsonParseFailure)
      case JsonNull => Some(NullMemberRead)
      case Json(StringError(text)) => Some(Error(if text != "" then text else SubmitFailure))
      case Json(NonString(shown)) => Some(Error(shown))
      case Json(_) => Some(Error(SubmitFailure))
  }
}
