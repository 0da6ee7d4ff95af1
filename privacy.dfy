/** Privacy helpers: the coarse region bucket of a country code, the consent check, the
    removal of personal fields from a request body, and the guard in front of hashing. */
module Privacy {
  import opened Wrappers
  import Text

  /** A JSON-like JavaScript value, with the truthiness the helpers test. */
  datatype Value =
    | Undefined
    | Null
    | Bool(b: bool)
    | Num(n: real)
    | Str(s: string)
    | Object(fields: map<string, Value>)

  /** JavaScript truthiness: `false`, `0`, `''`, `null` and `undefined` are falsy. */
  predicate Truthy(v: Value) {
    match v
    case Undefined => false
    case Null => false
    case Bool(b) => b
    case Num(n) => n != 0.0
    case Str(s) => s != ""
    case Object(_) => true
  }

  /** `v[key]` for the keys the helpers read: a missing property, or a property of a value
      that is not an object, is `undefined`. */
  function Member(v: Value, key: string): (r: Value)
    ensures v.Object? && key in v.fields ==> r == v.fields[key]
    ensures !(v.Object? && key in v.fields) ==> r == Undefined
  {
    if v.Object? && key in v.fields then v.fields[key] else Undefined
  }

  // ---------------------------------------------------------------------------------
  // Region buckets

  /** The region values the data models accept; `getRegionBucket` never yields `UsWest`. */
  datatype Region = UsEast | UsWest | EuWest | EuEast | Apac | Latam | Mena | Other

  function RegionName(r: Region): string {
    match r
    case UsEast => "us_east"
    case UsWest => "us_west"
    case EuWest => "eu_west"
    case EuEast => "eu_east"
    case Apac => "apac"
    case Latam => "latam"
    case Mena => "mena"
    case Other => "other"
  }

  const REGION_MAP: map<string, Region> := map[
    "US" := UsEast,
    "GB" := EuWest, "IE" := EuWest, "FR" := EuWest, "ES" := EuWest,
    "PT" := EuWest, "NL" := EuWest, "BE" := EuWest, "DE" := EuWest,
    "PL" := EuEast, "CZ" := EuEast, "HU" := EuEast, "RO" := EuEast,
    "BG" := EuEast, "UA" := EuEast, "RU" := EuEast,
    "CN" := Apac, "JP" := Apac, "KR" := Apac, "IN" := Apac,
    "AU" := Apac, "NZ" := Apac, "SG" := Apac, "TH" := Apac,
    "MX" := Latam, "BR" := Latam, "AR" := Latam, "CO" := Latam,
    "CL" := Latam, "PE" := Latam,
    "SA" := Mena, "AE" := Mena, "EG" := Mena, "TR" := Mena,
    "IL" := Mena, "QA" := Mena
  ]

  /** `getRegionBucket`: `None` stands for `null`/`undefined`. */
  function RegionBucket(countryCode: Option<string>): (r: Region)
    ensures countryCode.None? || countryCode == Some("") ==> r == Other
    ensures countryCode.Some? && Text.UpperCase(countryCode.value) in REGION_MAP ==>
      r == REGION_MAP[Text.UpperCase(countryCode.value)]
    ensures countryCode.Some? && Text.UpperCase(countryCode.value) !in REGION_MAP ==> r == Other
  {
    if countryCode.None? || countryCode.value == "" then Other
    else
      var key := Text.UpperCase(countryCode.value);
      if key in REGION_MAP then REGION_MAP[key] else Other
  }

  /** Every table entry and thus every result is one of the seven produced buckets. */
  lemma RegionBucketRange(countryCode: Option<string>)
    ensures RegionBucket(countryCode) != UsWest
    ensures RegionName(RegionBucket(countryCode)) in
      {"us_east", "eu_west", "eu_east", "apac", "latam", "mena", "other"}
  {
    assert forall k :: k in REGION_MAP ==> REGION_MAP[k] != UsWest;
  }

  /** The lookup does not depend on letter case: a code and its upper-cased form fall in
      the same bucket. */
  lemma {:induction false} RegionBucketCaseInsensitive(code: string)
    ensures RegionBucket(Some(code)) == RegionBucket(Some(Text.UpperCase(code)))
  {
    Text.UpperCaseIdempotent(code);
    if code == "" {
      assert Text.UpperCase(code) == "";
    } else {
      assert |Text.UpperCase(code)| >= |code| > 0;
    }
  }

  /** Sample table entries, one lower-case code landing with its upper-case form, and an
      unmapped code. */
  lemma RegionBucketUs()
    ensures RegionBucket(Some("US")) == UsEast
  {
    assert Text.UpperCase("US") == "US";
  }

  lemma RegionBucketDe()
    ensures RegionBucket(Some("DE")) == EuWest
    ensures RegionBucket(Some("de")) == EuWest
  {
    assert Text.UpperCase("DE") == "DE";
    assert Text.UpperCase("de") == "DE";
  }

  lemma RegionBucketRuIn()
    ensures RegionBucket(Some("RU")) == EuEast
    ensures RegionBucket(Some("IN")) == Apac
  {
    assert Text.UpperCase("RU") == "RU";
    assert Text.UpperCase("IN") == "IN";
  }

  lemma RegionBucketBrTr()
    ensures RegionBucket(Some("BR")) == Latam
    ensures RegionBucket(Some("TR")) == Mena
  {
    assert Text.UpperCase("BR") == "BR";
    assert Text.UpperCase("TR") == "TR";
  }

  lemma RegionBucketUnmapped()
    ensures RegionBucket(Some("XX")) == Other
  {
    assert Text.UpperCase("XX") == "XX";
  }

  // ---------------------------------------------------------------------------------
  // Consent

  /** `validateConsent` returns the value of its `&&` chain: the consent itself when it is
      falsy, `false` when the opt-in is not exactly `true`, else the timestamp. */
  function ValidateConsent(consentData: Value): (r: Value)
    ensures Truthy(r) <==>
      Truthy(consentData) && Member(consentData, "dataSharingOptIn") == Bool(true) &&
      Truthy(Member(consentData, "consentTimestamp"))
  {
    if !Truthy(consentData) then consentData
    else if Member(consentData, "dataSharingOptIn") != Bool(true) then Bool(false)
    else Member(consentData, "consentTimestamp")
  }

  // ---------------------------------------------------------------------------------
  // Sanitizing

  const PII_FIELDS: seq<string> :=
    ["email", "phone", "name", "address", "ip", "ipAddress", "gps", "latitude", "longitude"]

  /** `sanitizeData`: a copy of the record without the personal fields whose value is
      truthy. The record is a value, so the caller's copy cannot change. */
  method SanitizeData(data: map<string, Value>) returns (sanitized: map<string, Value>)
    ensures forall k :: k in sanitized <==> k in data && !(k in PII_FIELDS && Truthy(data[k]))
    ensures forall k :: k in sanitized ==> sanitized[k] == data[k]
  {
    sanitized := data;
    for i := 0 to |PII_FIELDS|
      invariant forall k :: k in sanitized <==> k in data && !(k in PII_FIELDS[..i] && Truthy(data[k]))
      invariant forall k :: k in sanitized ==> sanitized[k] == data[k]
    {
      var field := PII_FIELDS[i];
      if field in sanitized && Truthy(sanitized[field]) {
        sanitized := sanitized - {field};
      }
      assert PII_FIELDS[..i + 1] == PII_FIELDS[..i] + [field];
    }
    assert PII_FIELDS[..|PII_FIELDS|] == PII_FIELDS;
  }

  // ---------------------------------------------------------------------------------
  // Hashing

  /** `hashData`: `null` for a falsy input; otherwise the digest, which stands for the
      SHA-256 of the input joined to the server secret and is supplied by the caller. */
  function HashData(data: Value, sha256: Value -> string): (r: Option<string>)
    ensures r.None? <==> !Truthy(data)
    ensures r.Some? ==> r.value == sha256(data)
  {
    if !Truthy(data) then None else Some(sha256(data))
  }
}
