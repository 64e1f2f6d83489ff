/**
 * The ipstack.com adapter: the accessors of an ipstack result, which read one
 * decoded JSON record, and the three hooks of the ipstack query.
 */
module IpStack {
  import opened Json

  /** One JSON object returned by ipstack, as the result wraps it. */
  type Record = map<string, Value>

  /** The exceptions a subscript `d[key]` can raise. */
  datatype PyError = KeyError(key: string) | TypeError

  datatype Result<+T> = Ok(value: T) | Err(error: PyError)

  /** `r` is what `raw.get(key)` returns: the entry, or None when the key is absent. */
  predicate ReadsKey(raw: Record, key: string, r: Value) {
    if key in raw then r == raw[key] else r == Null
  }

  /** `raw.get(key)`, which never raises. */
  function Get(raw: Record, key: string): (r: Value)
    ensures ReadsKey(raw, key, r)
    ensures r != Null ==> key in raw
  {
    if key in raw then raw[key] else Null
  }

  // ---------------------------------------------------------------------------
  // Plain accessors: one lookup each

  function Lat(raw: Record): (r: Value)
    ensures ReadsKey(raw, "latitude", r)
  {
    Get(raw, "latitude")
  }

  function Lng(raw: Record): (r: Value)
    ensures ReadsKey(raw, "longitude", r)
  {
    Get(raw, "longitude")
  }

  function City(raw: Record): (r: Value)
    ensures ReadsKey(raw, "city", r)
  {
    Get(raw, "city")
  }

  function Type(raw: Record): (r: Value)
    ensures ReadsKey(raw, "type", r)
  {
    Get(raw, "type")
  }

  /** The state is the region code, not the region name. */
  function State(raw: Record): (r: Value)
    ensures ReadsKey(raw, "region_code", r)
  {
    Get(raw, "region_code")
  }

  function StateName(raw: Record): (r: Value)
    ensures ReadsKey(raw, "region_name", r)
  {
    Get(raw, "region_name")
  }

  function RegionCode(raw: Record): (r: Value)
    ensures ReadsKey(raw, "region_code", r)
  {
    Get(raw, "region_code")
  }

  function RegionName(raw: Record): (r: Value)
    ensures ReadsKey(raw, "region_name", r)
  {
    Get(raw, "region_name")
  }

  /** The country is the country's name. */
  function Country(raw: Record): (r: Value)
    ensures ReadsKey(raw, "country_name", r)
  {
    Get(raw, "country_name")
  }

  function CountryCode(raw: Record): (r: Value)
    ensures ReadsKey(raw, "country_code", r)
  {
    Get(raw, "country_code")
  }

  function ContinentCode(raw: Record): (r: Value)
    ensures ReadsKey(raw, "continent_code", r)
  {
    Get(raw, "continent_code")
  }

  function ContinentName(raw: Record): (r: Value)
    ensures ReadsKey(raw, "continent_name", r)
  {
    Get(raw, "continent_name")
  }

  function Ip(raw: Record): (r: Value)
    ensures ReadsKey(raw, "ip", r)
  {
    Get(raw, "ip")
  }

  function LocationData(raw: Record): (r: Value)
    ensures ReadsKey(raw, "location", r)
  {
    Get(raw, "location")
  }

  /** `state` and `region_code` are two names for one field, and so are
      `state_name` and `region_name`. */
  lemma StateAliases(raw: Record)
    ensures State(raw) == RegionCode(raw)
    ensures StateName(raw) == RegionName(raw)
  {
  }

  // ---------------------------------------------------------------------------
  // Address

  /** The one-line address: "city, state country" when the city is truthy,
      else "state, country" when the state is truthy, else the country when it
      is truthy, else the empty text. None only where a component that is
      written out has a rendering this model leaves out. */
  function Address(raw: Record): (r: Option<string>)
    ensures r.None? ==>
      (Truthy(City(raw)) && (Render(City(raw)).None? || Render(State(raw)).None? || Render(Country(raw)).None?)) ||
      (!Truthy(City(raw)) && Truthy(State(raw)) && (Render(State(raw)).None? || Render(Country(raw)).None?)) ||
      (!Truthy(City(raw)) && !Truthy(State(raw)) && Truthy(Country(raw)) && Render(Country(raw)).None?)
    ensures r == Some("") <==> !Truthy(City(raw)) && !Truthy(State(raw)) && !Truthy(Country(raw))
  {
    var city, state, country := City(raw), State(raw), Country(raw);
    if Truthy(city) then
      match (Render(city), Render(state), Render(country))
      case (Some(c), Some(s), Some(n)) =>
        TruthyRendersNonEmpty(city);
        Some(c + ", " + s + " " + n)
      case _ => None
    else if Truthy(state) then
      match (Render(state), Render(country))
      case (Some(s), Some(n)) =>
        TruthyRendersNonEmpty(state);
        Some(s + ", " + n)
      case _ => None
    else if Truthy(country) then
      match Render(country)
      case Some(n) =>
        TruthyRendersNonEmpty(country);
        Some(n)
      case None => None
    else
      Some("")
  }

  /** A truthy city gives "city, region_code country_name". */
  lemma AddressWithCity(raw: Record, city: string, state: string, country: string)
    requires "city" in raw && raw["city"] == Str(city) && city != ""
    requires "region_code" in raw && raw["region_code"] == Str(state)
    requires "country_name" in raw && raw["country_name"] == Str(country)
    ensures Address(raw) == Some(city + ", " + state + " " + country)
  {
  }

  /** With a truthy city, a region code that is absent or JSON null is written
      as the text "None"; so is a country that is absent or null. */
  lemma AddressWithCityWritesNone(raw: Record, city: string, country: string)
    requires "city" in raw && raw["city"] == Str(city) && city != ""
    requires Get(raw, "region_code") == Null
    requires Render(Get(raw, "country_name")) == Some(country)
    ensures Address(raw) == Some(city + ", None " + country)
    ensures Get(raw, "country_name") == Null ==> Address(raw) == Some(city + ", None None")
  {
    assert city + ", " + "None" + " " + country == city + ", None " + country;
    if Get(raw, "country_name") == Null {
      assert country == "None";
      assert city + ", None " + "None" == city + ", None None";
    }
  }

  /** A falsy city and a truthy region code give "region_code, country_name". */
  lemma AddressWithState(raw: Record, state: string, country: string)
    requires !Truthy(Get(raw, "city"))
    requires "region_code" in raw && raw["region_code"] == Str(state) && state != ""
    requires "country_name" in raw && raw["country_name"] == Str(country)
    ensures Address(raw) == Some(state + ", " + country)
  {
  }

  /** Only the country truthy: the address is the country name. */
  lemma AddressWithCountry(raw: Record, country: string)
    requires !Truthy(Get(raw, "city")) && !Truthy(Get(raw, "region_code"))
    requires "country_name" in raw && raw["country_name"] == Str(country)
    ensures Address(raw) == Some(country)
  {
  }

  /** The region name never takes part in the address, whatever it holds. */
  lemma AddressIgnoresRegionName(raw: Record, v: Value)
    ensures Address(raw["region_name" := v]) == Address(raw)
  {
    var raw' := raw["region_name" := v];
    assert Get(raw', "city") == Get(raw, "city");
    assert Get(raw', "region_code") == Get(raw, "region_code");
    assert Get(raw', "country_name") == Get(raw, "country_name");
  }

  predicate NoComma(t: Option<string>) {
    t.Some? ==> ',' !in t.value
  }

  /** When no component contains a comma, the address contains one exactly
      when the city or the state is truthy. */
  lemma AddressCommaIff(raw: Record)
    requires Address(raw).Some?
    requires NoComma(Render(City(raw))) && NoComma(Render(State(raw))) && NoComma(Render(Country(raw)))
    ensures ',' in Address(raw).value <==> Truthy(City(raw)) || Truthy(State(raw))
  {
    var a := Address(raw).value;
    if Truthy(City(raw)) {
      var c := Render(City(raw)).value;
      assert a[|c|] == ',';
    } else if Truthy(State(raw)) {
      var s := Render(State(raw)).value;
      assert a[|s|] == ',';
    }
  }

  // ---------------------------------------------------------------------------
  // Postal code

  /** The postal code: the first truthy of `zip_code`, `postal_code` and `zip`,
      in that order, or None when none of them is truthy. */
  function Postal(raw: Record): (r: Value)
    ensures r == Null || Truthy(r)
    ensures r != Null ==> r in {Get(raw, "zip_code"), Get(raw, "postal_code"), Get(raw, "zip")}
  {
    var zipCode := Get(raw, "zip_code");
    var postalCode := Get(raw, "postal_code");
    var zip := Get(raw, "zip");
    if Truthy(zipCode) then zipCode
    else if Truthy(postalCode) then postalCode
    else if Truthy(zip) then zip
    else Null
  }

  /** `vs[i]` is the first truthy value of `vs`. */
  predicate IsFirstTruthy(vs: seq<Value>, i: int) {
    0 <= i < |vs| && Truthy(vs[i]) && forall j :: 0 <= j < i ==> !Truthy(vs[j])
  }

  /** The first truthy value of a sequence, or None if it has none. */
  function FirstTruthy(vs: seq<Value>): (r: Value)
    ensures r == Null <==> forall j :: 0 <= j < |vs| ==> !Truthy(vs[j])
    ensures r != Null ==> exists i :: IsFirstTruthy(vs, i) && vs[i] == r
  {
    if vs == [] then Null
    else if Truthy(vs[0]) then
      assert IsFirstTruthy(vs, 0);
      vs[0]
    else
      var r := FirstTruthy(vs[1..]);
      assert r != Null ==> exists i :: IsFirstTruthy(vs, i) && vs[i] == r by {
        if r != Null {
          var i :| IsFirstTruthy(vs[1..], i) && vs[1..][i] == r;
          assert IsFirstTruthy(vs, i + 1);
        }
      }
      r
  }

  /** The postal code is the first truthy of the three candidate fields. */
  lemma PostalIsFirstTruthy(raw: Record)
    ensures Postal(raw) == FirstTruthy([Get(raw, "zip_code"), Get(raw, "postal_code"), Get(raw, "zip")])
  {
    var vs := [Get(raw, "zip_code"), Get(raw, "postal_code"), Get(raw, "zip")];
    assert vs[1..] == [vs[1], vs[2]];
    assert vs[1..][1..] == [vs[2]];
    assert vs[1..][1..][1..] == [];
  }

  /** The precedence between the three fields, case by case. */
  lemma PostalPrecedence(raw: Record)
    ensures Truthy(Get(raw, "zip_code")) ==> Postal(raw) == raw["zip_code"]
    ensures !Truthy(Get(raw, "zip_code")) && Truthy(Get(raw, "postal_code")) ==>
      Postal(raw) == raw["postal_code"]
    ensures !Truthy(Get(raw, "zip_code")) && !Truthy(Get(raw, "postal_code")) && Truthy(Get(raw, "zip")) ==>
      Postal(raw) == raw["zip"]
    ensures !Truthy(Get(raw, "zip_code")) && !Truthy(Get(raw, "postal_code")) && !Truthy(Get(raw, "zip")) ==>
      Postal(raw) == Null
  {
  }

  /** Once `zip_code` is truthy, no value of `postal_code` or `zip` changes the postal code. */
  lemma PostalZipCodeWins(raw: Record, key: string, v: Value)
    requires Truthy(Get(raw, "zip_code"))
    requires key == "postal_code" || key == "zip"
    ensures Postal(raw[key := v]) == Postal(raw)
  {
    assert Get(raw[key := v], "zip_code") == Get(raw, "zip_code");
  }

  /** A falsy `zip_code` is passed over, and with no truthy candidate the result is None. */
  lemma PostalExamples(code: string)
    requires code != ""
    ensures Postal(map["zip_code" := Str(code)]) == Str(code)
    ensures Postal(map["postal_code" := Str(code)]) == Str(code)
    ensures Postal(map["zip_code" := Str(""), "zip" := Str(code)]) == Str(code)
    ensures Postal(map["zip_code" := Str("")]) == Null
  {
    assert "zip_code" != "postal_code" by { assert |"zip_code"| != |"postal_code"|; }
    assert "zip_code" != "zip" by { assert |"zip_code"| != |"zip"|; }
    assert "postal_code" != "zip" by { assert |"postal_code"| != |"zip"|; }
  }

  // ---------------------------------------------------------------------------
  // Fields of the nested location object

  /** Python's subscript `v[key]` with a string key: the entry of a dict, a
      KeyError when the dict lacks the key, a TypeError on anything else. */
  function Subscript(v: Value, key: string): (r: Result<Value>)
    ensures r.Ok? <==> v.Object? && key in v.fields
    ensures r.Ok? ==> r.value == v.fields[key]
    ensures v.Object? && key !in v.fields ==> r == Err(KeyError(key))
    ensures !v.Object? ==> r == Err(TypeError)
  {
    match v
    case Object(fields) => if key in fields then Ok(fields[key]) else Err(KeyError(key))
    case _ => Err(TypeError)
  }

  /** `location[key]` when the location object is truthy, None otherwise. */
  function NestedField(raw: Record, key: string): (r: Result<Value>)
    ensures !Truthy(LocationData(raw)) ==> r == Ok(Null)
    ensures Truthy(LocationData(raw)) && LocationData(raw).Object? && key in LocationData(raw).fields ==>
      r == Ok(LocationData(raw).fields[key])
    ensures Truthy(LocationData(raw)) && LocationData(raw).Object? && key !in LocationData(raw).fields ==>
      r == Err(KeyError(key))
    ensures Truthy(LocationData(raw)) && !LocationData(raw).Object? ==> r == Err(TypeError)
  {
    var location := Get(raw, "location");
    if Truthy(location) then Subscript(location, key) else Ok(Null)
  }

  function GeonameId(raw: Record): (r: Result<Value>)
    ensures r.Ok? <==>
      (!Truthy(LocationData(raw)) || (LocationData(raw).Object? && "geoname_id" in LocationData(raw).fields))
    ensures r.Ok? ==> r.value == if Truthy(LocationData(raw)) then LocationData(raw).fields["geoname_id"] else Null
  {
    NestedField(raw, "geoname_id")
  }

  function Capital(raw: Record): (r: Result<Value>)
    ensures r.Ok? <==>
      (!Truthy(LocationData(raw)) || (LocationData(raw).Object? && "capital" in LocationData(raw).fields))
    ensures r.Ok? ==> r.value == if Truthy(LocationData(raw)) then LocationData(raw).fields["capital"] else Null
  {
    NestedField(raw, "capital")
  }

  /** Without a location object both nested fields are None. */
  lemma NestedFieldsWithoutLocation(raw: Record)
    requires "location" !in raw
    ensures GeonameId(raw) == Ok(Null) && Capital(raw) == Ok(Null)
  {
  }

  /** A location object holding a key yields that key's entry, whatever else it holds. */
  lemma NestedFieldsOfLocation(raw: Record)
    requires "location" in raw && raw["location"].Object?
    ensures "geoname_id" in raw["location"].fields ==>
      GeonameId(raw) == Ok(raw["location"].fields["geoname_id"])
    ensures "capital" in raw["location"].fields ==>
      Capital(raw) == Ok(raw["location"].fields["capital"])
  {
  }

  /** A non-empty location object that lacks the key raises KeyError for it. */
  lemma NestedFieldMissingKey(raw: Record)
    requires "location" in raw && raw["location"].Object? && raw["location"].fields != map[]
    ensures "geoname_id" !in raw["location"].fields ==> GeonameId(raw) == Err(KeyError("geoname_id"))
    ensures "capital" !in raw["location"].fields ==> Capital(raw) == Err(KeyError("capital"))
  {
  }

  // ---------------------------------------------------------------------------
  // The query

  /** The endpoint every request URL starts with. */
  const BaseUrl: string := "http://api.ipstack.com/"

  class IpStackQuery {
    /** The request URL; the location is appended to it before the request. */
    var url: string

    constructor (url: string)
      ensures this.url == url
    {
      this.url := url;
    }

    /** The hook run before the request: the location becomes the URL's path. */
    method BeforeInitialize(location: string)
      modifies this
      ensures url == old(url) + location
    {
      url := url + location;
    }
  }

  /** The URL a query for `location` requests, its URL starting as the endpoint. */
  method RequestUrl(location: string) returns (u: string)
    ensures u == BaseUrl + location
    ensures |u| == |BaseUrl| + |location| && u[..|BaseUrl|] == BaseUrl && u[|BaseUrl|..] == location
  {
    var query := new IpStackQuery(BaseUrl);
    query.BeforeInitialize(location);
    u := query.url;
  }

  /** The query parameters: only the access key; the location is not among them. */
  function BuildParams(location: string, providerKey: string): (r: map<string, string>)
    ensures r.Keys == {"access_key"}
    ensures r["access_key"] == providerKey
  {
    map["access_key" := providerKey]
  }

  /** The parameters depend on the provider key alone. */
  lemma BuildParamsIgnoresLocation(location: string, location': string, providerKey: string)
    ensures BuildParams(location, providerKey) == BuildParams(location', providerKey)
  {
  }

  /** ipstack answers with one object: it becomes a list of one raw record. */
  function AdaptResults(response: Value): (r: seq<Value>)
    ensures |r| == 1 && r[0] == response
  {
    [response]
  }

  /** Adapting keeps the response whole: distinct responses give distinct lists. */
  lemma AdaptResultsInjective(a: Value, b: Value)
    ensures AdaptResults(a) == AdaptResults(b) <==> a == b
  {
    if AdaptResults(a) == AdaptResults(b) {
      assert AdaptResults(a)[0] == AdaptResults(b)[0];
    }
  }
}
