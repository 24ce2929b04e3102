/** The static service registry: every form the assistant can fill, with its
    display name, output template and ordered required-field schema. */
module Services {

  /** One entry of a service's `required_fields` dictionary. */
  datatype Field = Field(key: string, labelText: string)

  datatype Service = Service(
    name: string,
    description: string,
    templateFile: string,
    pdfEnabled: bool,
    requiredFields: seq<Field>)

  const IdentityCardKey := "identity_card"
  const PassportRenewalKey := "passport_renewal"
  const VehicleRegistrationKey := "vehicle_registration"

  const IdentityCard := Service(
    "Identity Card Issue (14yo)",
    "Application for the first Identity Card issuance for minors.",
    "template_id.pdf",
    true,
    [ Field("LastName", "Family Name"),
      Field("FirstName", "First Name"),
      Field("CNP", "Personal Numerical Code (CNP)"),
      Field("FatherName", "Father's First Name"),
      Field("MotherName", "Mother's First Name"),
      Field("City", "City / Sector"),
      Field("Street", "Street Name"),
      Field("Number", "Street Number") ])

  const PassportRenewal := Service(
    "Passport Renewal Application",
    "Application to renew an expired electronic passport.",
    "template_passport.pdf",
    true,
    [ Field("LastName", "Current Family Name"),
      Field("FirstName", "First Name"),
      Field("PassportNo", "Old Passport Number"),
      Field("ExpiryDate", "Old Expiry Date (DD/MM/YYYY)"),
      Field("CNP", "Personal Numerical Code"),
      Field("Reason", "Reason for Renewal") ])

  const VehicleRegistration := Service(
    "Vehicle Registration Form",
    "Registering a newly purchased vehicle.",
    "template_vehicle.pdf",
    true,
    [ Field("OwnerName", "New Owner Name"),
      Field("VIN", "Chassis Number (VIN)"),
      Field("CarMake", "Car Brand (Make)"),
      Field("CarModel", "Car Model"),
      Field("ProductionYear", "Year of Production"),
      Field("Date", "Purchase Date") ])

  /** `list(SERVICES.keys())`: the registry keys in declaration order. */
  const ServiceKeys: seq<string> := [IdentityCardKey, PassportRenewalKey, VehicleRegistrationKey]

  /** `SERVICES`, looked up by key. */
  const Registry: map<string, Service> := map[
    IdentityCardKey := IdentityCard,
    PassportRenewalKey := PassportRenewal,
    VehicleRegistrationKey := VehicleRegistration]

  /** The service a fresh session starts on. */
  const DefaultServiceKey := IdentityCardKey

  /** The set of keys of a schema. */
  function KeySet(fields: seq<Field>): set<string> {
    set i | 0 <= i < |fields| :: fields[i].key
  }

  /** A Python dict holds each key once. */
  predicate DistinctKeys(fields: seq<Field>) {
    forall i, j :: 0 <= i < j < |fields| ==> fields[i].key != fields[j].key
  }

  /** The keys of a non-empty schema are those of all but its last entry,
      plus the last entry's key. */
  lemma KeySetSnoc(fields: seq<Field>)
    requires |fields| > 0
    ensures KeySet(fields) == KeySet(fields[..|fields| - 1]) + {fields[|fields| - 1].key}
  {
    var init := fields[..|fields| - 1];
    forall k | k in KeySet(fields) ensures k in KeySet(init) + {fields[|fields| - 1].key} {
      var i :| 0 <= i < |fields| && fields[i].key == k;
      if i < |fields| - 1 {
        assert init[i] == fields[i];
      }
    }
    forall k | k in KeySet(init) ensures k in KeySet(fields) {
      var i :| 0 <= i < |init| && init[i].key == k;
      assert fields[i] == init[i];
    }
  }

  /** Dropping the last entry of a schema without repeated keys leaves one
      without repeated keys that lacks the last key. */
  lemma DistinctInit(fields: seq<Field>)
    requires |fields| > 0 && DistinctKeys(fields)
    ensures DistinctKeys(fields[..|fields| - 1])
    ensures fields[|fields| - 1].key !in KeySet(fields[..|fields| - 1])
  {
    var init := fields[..|fields| - 1];
    forall i, j | 0 <= i < j < |init| ensures init[i].key != init[j].key {
      assert init[i] == fields[i] && init[j] == fields[j];
    }
    forall i | 0 <= i < |init| ensures init[i].key != fields[|fields| - 1].key {
      assert init[i] == fields[i];
    }
  }

  /** A schema with distinct keys has exactly as many keys as entries, so
      `len(required_fields)` is the number of entries. */
  lemma {:induction false} KeySetSize(fields: seq<Field>)
    requires DistinctKeys(fields)
    ensures |KeySet(fields)| == |fields|
  {
    if |fields| > 0 {
      var init := fields[..|fields| - 1];
      DistinctInit(fields);
      KeySetSize(init);
      KeySetSnoc(fields);
    }
  }

  /** The registry holds exactly the three services, listed without
      repetition, and the default service is the first of them. */
  lemma RegistryShape()
    ensures Registry.Keys == {IdentityCardKey, PassportRenewalKey, VehicleRegistrationKey}
    ensures forall k :: k in Registry <==> k in ServiceKeys
    ensures forall i, j :: 0 <= i < j < |ServiceKeys| ==> ServiceKeys[i] != ServiceKeys[j]
    ensures DefaultServiceKey in Registry && ServiceKeys[0] == DefaultServiceKey
  {
  }

  /** Every registered schema is a proper dictionary with 8, 6 and 6 entries;
      in particular none is empty, so the progress ratio never divides by 0. */
  lemma SchemaSizes()
    ensures |IdentityCard.requiredFields| == 8
    ensures |PassportRenewal.requiredFields| == 6
    ensures |VehicleRegistration.requiredFields| == 6
    ensures forall k :: k in Registry ==> DistinctKeys(Registry[k].requiredFields)
    ensures forall k :: k in Registry ==> |Registry[k].requiredFields| > 0
  {
  }

  /** The identity-card and passport schemas share the keys `LastName`,
      `FirstName` and `CNP`. */
  lemma SharedFieldKeys()
    ensures "LastName" in KeySet(IdentityCard.requiredFields) && "LastName" in KeySet(PassportRenewal.requiredFields)
    ensures "FirstName" in KeySet(IdentityCard.requiredFields) && "FirstName" in KeySet(PassportRenewal.requiredFields)
    ensures "CNP" in KeySet(IdentityCard.requiredFields) && "CNP" in KeySet(PassportRenewal.requiredFields)
  {
    var identity, passport := IdentityCard.requiredFields, PassportRenewal.requiredFields;
    assert identity[0].key == "LastName" && passport[0].key == "LastName";
    assert identity[1].key == "FirstName" && passport[1].key == "FirstName";
    assert identity[2].key == "CNP" && passport[4].key == "CNP";
  }

  /** Each service renders into its own template file. */
  lemma DistinctTemplates()
    ensures forall k, k' :: k in Registry && k' in Registry && k != k' ==>
              Registry[k].templateFile != Registry[k'].templateFile
  {
  }
}
