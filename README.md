# ipstack adapter of geocoder, in Dafny

This project models the ipstack.com adapter of the `geocoder` Python library
(`geocoder/ipstack.py`). The adapter has two parts:

- `IPStackResult` wraps one JSON object returned by ipstack. It exposes read-only
  accessors: coordinates, a one-line address, a postal code, administrative
  fields, and two fields of a nested `location` object.
- `IpStackQuery` appends the location to the request URL. It builds the query
  parameters from the API key. It wraps ipstack's single-object answer in a list.

Modules:

- `Json` (`json.dfy`): decoded JSON values (`Value`). It gives Python's truth test
  (`Truthy`) and the text `str()` writes for a value (`Render`). The int
  rendering is proved to round-trip.
- `IpStack` (`ipstack.dfy`): the accessors are functions over a record
  `Record = map<string, Value>`. Every condition in the source is a truth test,
  not a presence test, and the model copies that. Subscripting the nested
  location can raise, so that error is a `Result` with `KeyError` / `TypeError`.
  The query is a class `IpStackQuery` with the mutable field `url`.

Because the record is an immutable value and every accessor is a function, no
accessor can change the record.

Behaviour of the code worth knowing, all of it kept by the model:

- The state-only address is written `"state, country"`, with a comma (geocoder/ipstack.py:31).
- The "state" is `region_code`, not `region_name` (geocoder/ipstack.py:57-58).
- `postal` returns the first *truthy* candidate, so an empty `zip_code` is
  skipped (geocoder/ipstack.py:41-46).
- With a truthy city, a region code or country that is missing or JSON null is
  written as the text `None`, which is what `format` writes for Python's `None`
  (geocoder/ipstack.py:28-29).
- A truthy `location` object that lacks `geoname_id` or `capital` raises
  `KeyError`. It does not yield None (geocoder/ipstack.py:99-101, 106-108).

## Model

| member | source | states |
|---|---|---|
| `Json.Truthy` | geocoder/ipstack.py:28-33 | a value passes the truth test of `if v:` (lines 28, 30, 32, 41, 43, 45, 99, 106) exactly when it is not one of None, False, 0, 0.0, '', [] and {} |
| `Json.Decimal` | geocoder/ipstack.py:29-33 | an int's digits are non-empty, all decimal digits, with no leading zero; 0 is written "0" |
| `Json.DecimalRoundTrip` | geocoder/ipstack.py:29-33 | reading the digits of a natural number back gives the number |
| `Json.IntText` | geocoder/ipstack.py:29-33 | the text of an int starts with '-' exactly when the int is negative |
| `Json.IntTextRoundTrip` | geocoder/ipstack.py:29-33 | the text `format` writes for an int reads back as the same int |
| `Json.Render` | geocoder/ipstack.py:29-33 | `format` writes a string as itself and an int as text that reads back as it; only floats, lists and dicts lack a rendering here |
| `Json.TruthyRendersNonEmpty` | geocoder/ipstack.py:28-33 | a truthy component never renders as empty text |
| `IpStack.Get` | geocoder/ipstack.py:18-24 | `raw.get(key)` never raises: the entry, or None when the key is absent; the same lookup serves every accessor (lines 20-94, 98, 105) |
| `IpStack.Lat` | geocoder/ipstack.py:18-20 | the `latitude` entry, or None when absent |
| `IpStack.Lng` | geocoder/ipstack.py:22-24 | the `longitude` entry, or None when absent |
| `IpStack.City` | geocoder/ipstack.py:48-50 | the `city` entry, or None when absent |
| `IpStack.Type` | geocoder/ipstack.py:52-54 | the `type` entry, or None when absent |
| `IpStack.State` | geocoder/ipstack.py:56-58 | the state is the `region_code` entry, or None when absent |
| `IpStack.StateName` | geocoder/ipstack.py:60-62 | the `region_name` entry, or None when absent |
| `IpStack.RegionCode` | geocoder/ipstack.py:64-66 | the `region_code` entry, or None when absent |
| `IpStack.RegionName` | geocoder/ipstack.py:68-70 | the `region_name` entry, or None when absent |
| `IpStack.Country` | geocoder/ipstack.py:72-74 | the country is the `country_name` entry, or None when absent |
| `IpStack.CountryCode` | geocoder/ipstack.py:76-78 | the `country_code` entry, or None when absent |
| `IpStack.ContinentCode` | geocoder/ipstack.py:80-82 | the `continent_code` entry, or None when absent |
| `IpStack.ContinentName` | geocoder/ipstack.py:84-86 | the `continent_name` entry, or None when absent |
| `IpStack.Ip` | geocoder/ipstack.py:88-90 | the `ip` entry, or None when absent |
| `IpStack.LocationData` | geocoder/ipstack.py:92-94 | the `location` entry, or None when absent |
| `IpStack.StateAliases` | geocoder/ipstack.py:56-70 | `state` equals `region_code` and `state_name` equals `region_name` on every record |
| `IpStack.Address` | geocoder/ipstack.py:26-34 | the address is empty exactly when city, state and country are all falsy; it is undefined only where a written component has no modelled rendering |
| `IpStack.AddressWithCity` | geocoder/ipstack.py:27-29 | a truthy city gives exactly "city, region_code country_name" |
| `IpStack.AddressWithCityWritesNone` | geocoder/ipstack.py:28-29 | with a truthy city, a region code that is absent or null is written "None", giving "city, None country"; a missing or null country too gives "city, None None" |
| `IpStack.AddressWithState` | geocoder/ipstack.py:30-31 | a falsy city and truthy region code give exactly "region_code, country_name" |
| `IpStack.AddressWithCountry` | geocoder/ipstack.py:32-33 | with city and region code falsy, the address is the country name |
| `IpStack.AddressIgnoresRegionName` | geocoder/ipstack.py:26-34 | no value of `region_name` changes the address |
| `IpStack.AddressCommaIff` | geocoder/ipstack.py:26-34 | for comma-free components, the address has a comma iff city or state is truthy |
| `IpStack.Postal` | geocoder/ipstack.py:36-46 | the postal code is None or truthy, and when not None it is one of the three candidate entries |
| `IpStack.FirstTruthy` | geocoder/ipstack.py:41-46 | reference definition: None iff no element is truthy, otherwise the first truthy element |
| `IpStack.PostalIsFirstTruthy` | geocoder/ipstack.py:36-46 | the postal code is the first truthy of `zip_code`, `postal_code`, `zip` |
| `IpStack.PostalPrecedence` | geocoder/ipstack.py:41-46 | `zip_code` if truthy, else `postal_code` if truthy, else `zip` if truthy, else None |
| `IpStack.PostalZipCodeWins` | geocoder/ipstack.py:38-42 | with a truthy `zip_code`, no change to `postal_code` or `zip` changes the postal code |
| `IpStack.PostalExamples` | geocoder/ipstack.py:36-46 | `zip_code` alone or `postal_code` alone is returned; an empty `zip_code` falls through to `zip` or to None |
| `IpStack.Subscript` | geocoder/ipstack.py:100 | `d[key]` gives the entry of a dict holding the key, KeyError for a dict without it, TypeError otherwise |
| `IpStack.NestedField` | geocoder/ipstack.py:97-108 | None when `location` is falsy; otherwise the entry, KeyError or TypeError of subscripting it |
| `IpStack.GeonameId` | geocoder/ipstack.py:97-101 | fails iff `location` is truthy and not a dict holding `geoname_id`; otherwise its entry or None |
| `IpStack.Capital` | geocoder/ipstack.py:103-108 | fails iff `location` is truthy and not a dict holding `capital`; otherwise its entry or None |
| `IpStack.NestedFieldsWithoutLocation` | geocoder/ipstack.py:98-101 | without `location`, geoname id and capital are None |
| `IpStack.NestedFieldsOfLocation` | geocoder/ipstack.py:97-108 | a location object holding `geoname_id` (or `capital`) yields that entry, whatever other keys it holds |
| `IpStack.NestedFieldMissingKey` | geocoder/ipstack.py:97-108 | a non-empty location object lacking `geoname_id` (or `capital`) raises KeyError for that key |
| `IpStack.IpStackQuery.constructor` | geocoder/ipstack.py:135 | a query holds the request URL it starts with; for ipstack that is `_URL` |
| `IpStack.IpStackQuery.BeforeInitialize` | geocoder/ipstack.py:139-140 | the new URL is the old URL followed by the location; nothing else changes |
| `IpStack.RequestUrl` | geocoder/ipstack.py:135-140 | starting from the endpoint, the URL is the endpoint followed by exactly the location |
| `IpStack.BuildParams` | geocoder/ipstack.py:142-145 | the only parameter is `access_key`, holding the provider key |
| `IpStack.BuildParamsIgnoresLocation` | geocoder/ipstack.py:142-145 | the parameters do not depend on the location |
| `IpStack.AdaptResults` | geocoder/ipstack.py:153-154 | the response becomes a list of exactly one element, the response itself |
| `IpStack.AdaptResultsInjective` | geocoder/ipstack.py:153-154 | two responses adapt to the same list iff they are equal |

## Left out

- `rate_limited_get` and its `ratelim.greedy(10000, 60 * 60)` throttle: the throttle is third-party code that depends on wall-clock time.
- `requests.get` and all HTTP transport, with the errors it raises: network I/O.
- `geocoder.keys.ipstack_key`: configuration loaded from the environment. The provider key is a parameter here.
- The `OneResult` and `MultipleResultsQuery` base classes: `geocoder/base.py` is not part of this model. The query lifecycle that calls the hooks is not modelled. The constructor of `IpStackQuery` takes the starting URL as a parameter.
- RequestUrl: assumes the base class starts `url` at `_URL`, which the base class code would have to confirm.
- The `provider` and `method` class attributes (geocoder/ipstack.py:132-133): labels read only by the base classes, which are not part of this model.
- The `__main__` debug block and logging setup: ad hoc I/O.
- Render: gives no text for floats, lists and dicts, whose Python `str()` forms are not modelled. So `Address` is `None` where Python would format such a component. Floats have no NaN or infinities here.
- `_before_initialize`, `_build_params`: their `**kwargs` are ignored by the source and omitted here.
