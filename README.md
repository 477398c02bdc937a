# Ferrellgas propane integration — a verified model

This project models the core of the Ferrellgas integration for Home Assistant.
The integration logs in to the Ferrellgas customer API and fetches an account
summary. It turns that loosely typed JSON into typed account and tank records.
From those records it publishes, per tank, twelve sensors and a low-propane
flag, plus one account-balance sensor.

Layout, one module per file:

- `wrappers.dfy`: `Option` and `Result`.
- `json.dfy`: decoded JSON values, with objects kept as ordered key/value lists, and the Python behaviour the code relies on:
  - `dict.get` as a first-match lookup;
  - truthiness;
  - `str()` and `repr()`;
  - `isinstance(x, (int, float))`, which also accepts booleans.
- `const.dfy`: the integration's constants.
- `api.dfy`: the error family, the parsed records, and these parts of the client:
  - `_to_float` and `_parse_datetime`;
  - the classification of HTTP responses;
  - the checks on the login response;
  - the account-id list.
- `account_summary.dfy`: `_parse_account_summary` as the nested loop it is, proved equal to a site-by-site specification.
- `account_summary_facts.dfy`: properties of that parser:
  - tanks keep source order;
  - every tank entry is covered;
  - fallback identities behave as stated;
  - a tank record survives a round trip through its JSON form.
- `entity.dfy`: the coordinator as the entities see it, `_find_tank`, `available` and the tank device info.
- `sensor.dfy`: the value function of every entry of `TANK_SENSORS`, the tank and account-balance sensors, and the sensor platform setup.
- `binary_sensor.dfy`: the low-propane flag and its platform setup.

## Model

| member | source | states |
|---|---|---|
| Api.ToFloat | custom_components/ferrellgas/api.py:224-229 | a value becomes a float exactly when it is a number; an int, a float and a bool (an int subclass in Python) all count; the value is kept and anything else gives None |
| Api.ParseDatetime | custom_components/ferrellgas/api.py:231-248 | a non-string or empty value gives None; a parsed datetime keeps its wall clock, and a naive one gets UTC; failing that, a bare date gives midnight UTC, else None; every result is timezone-aware |
| Api.HandleResponse | custom_components/ferrellgas/api.py:137-154 | 401/403 is an authentication error with the status in its message; any other status from 400 up is an API error carrying status and body; a non-JSON body and a non-object body are API errors; success exactly for a status below 400 with an object, returned unchanged; every failure belongs to the integration's error family |
| Api.HandleResponseAsWritten | custom_components/ferrellgas/api.py:146-149 | agrees with the intended classification for every status of 400 and up and for every body that decodes; below 400, a body that does not decode raises the JSON decoder's own error |
| Api.NonJsonBodyEscapesAsWritten | custom_components/ferrellgas/api.py:146-149 | as written, a 200 response with an HTML body raises an error outside the integration's error family; the intended classification gives "API returned non-JSON response" |
| Api.ForbiddenIsAuthenticationError | custom_components/ferrellgas/api.py:139-144 | 403 is classified as an authentication error, not by the generic check for 400 and up |
| Api.CheckLogin | custom_components/ferrellgas/api.py:109-117 | success exactly when `success` is truthy and `accessToken` is a non-empty string, and the token is then returned; every failure is an authentication error; a falsy `success` carries the server's `error` text or "Login failed"; a success without a token carries "Login succeeded but access token missing" |
| Api.LoginFailures | custom_components/ferrellgas/api.py:109-115 | rejected credentials fail with the server's message; a success without a token fails with the missing-token message |
| Api.AccountIds | custom_components/ferrellgas/api.py:75-78 | `Accounts` that is not a list (an absent key counts as an empty list) is an API error; otherwise each entry, in order, becomes its `str()` |
| AccountSummary.Balance | custom_components/ferrellgas/api.py:158-163 | the balance is present exactly when `FinancialSummary` is an object whose `Balance` is a number, and it is that number as a float |
| AccountSummary.AccountName | custom_components/ferrellgas/api.py:165 | the account id when `Name` is absent, else `str(Name)`, even for a null name |
| AccountSummary.SiteId | custom_components/ferrellgas/api.py:177 | `str(SiteId)` when truthy, else `site_<index>` |
| AccountSummary.SiteName | custom_components/ferrellgas/api.py:178 | the first truthy of `SiteName` and `Address1`, else the site id |
| AccountSummary.InstalledProductId | custom_components/ferrellgas/api.py:188-190 | a non-empty string id is kept, anything else becomes `<site_id>_<tank_index>`; the result is never empty |
| AccountSummary.ProductDescription | custom_components/ferrellgas/api.py:192 | `str(ProductDescription)` when truthy, else "Ferrellgas Tank" |
| AccountSummary.ProductId | custom_components/ferrellgas/api.py:193-195 | absent exactly for a missing or null `ProductId`; a string is kept as is; any other value becomes its `str()` (12345 becomes "12345") |
| AccountSummary.ParseTank | custom_components/ferrellgas/api.py:188-215 | the identity falls back to `<site_id>_<tank_index>` unless it is a non-empty string, and a product id that is neither null nor a string is replaced by its `str()`, reassigned step by step; the record built equals the one the field functions specify |
| AccountSummary.ParseAccountSummary | custom_components/ferrellgas/api.py:156-222 | the nested loop builds exactly the specified account: name, balance, and the tanks of every object site's object entries, site by site; a malformed `SiteSummary`, site or `IPSummary` is skipped and the loop never fails |
| AccountSummaryFacts.EntryPositionsExact | custom_components/ferrellgas/api.py:184-186 | within one site, the tank positions are exactly that site's object entries, in increasing order |
| AccountSummaryFacts.PositionsExact | custom_components/ferrellgas/api.py:173-186 | across sites, the positions are exactly the object entries of object sites, in increasing (site, entry) order |
| AccountSummaryFacts.EntryTanksAtPositions | custom_components/ferrellgas/api.py:184-215 | the p-th tank of a site is the record parsed from the entry at the p-th position |
| AccountSummaryFacts.SitesTanksAtPositions | custom_components/ferrellgas/api.py:173-215 | the p-th tank of the first n sites is the record parsed from the entry at the p-th position |
| AccountSummaryFacts.TanksInSourceOrder | custom_components/ferrellgas/api.py:156-222 | the parsed tanks are, one to one and in source order, the records of every object entry of every object site |
| AccountSummaryFacts.ParsedTanksHaveIdentity | custom_components/ferrellgas/api.py:188-215 | every parsed tank has a non-empty identity and no delivery record |
| AccountSummaryFacts.NonListSiteSummaryYieldsNoTanks | custom_components/ferrellgas/api.py:168-171 | a `SiteSummary` that is not a list yields no tanks |
| AccountSummaryFacts.MalformedSiteContributesNothing | custom_components/ferrellgas/api.py:174-182 | a site that is not an object, or whose `IPSummary` is not a list, adds no tanks |
| AccountSummaryFacts.FallbackIdCountsSkippedEntries | custom_components/ferrellgas/api.py:184-190 | the fallback identity uses the entry's index in `IPSummary`, so a skipped entry still takes an index ("S1_1", "S1_2" after a null entry) |
| AccountSummaryFacts.DuplicateIdentitiesAreKept | custom_components/ferrellgas/api.py:188-215 | two entries with the same `InstalledProductId` give two tanks with the same identity; nothing removes duplicates |
| AccountSummaryFacts.TankRoundTrip | custom_components/ferrellgas/api.py:188-215 | encoding a tank record as a JSON entry and parsing it back gives the same record |
| Entity.FindTank | custom_components/ferrellgas/entity.py:42-47 | absent exactly when no tank has the identity; a found tank is in the list and has the identity |
| Entity.SearchTanks | custom_components/ferrellgas/entity.py:42-47 | the loop returns what the search specification gives |
| Entity.FindTankReturnsFirst | custom_components/ferrellgas/entity.py:44-46 | the search returns the first tank in list order with the identity |
| Entity.FindTankWithUniqueIds | custom_components/ferrellgas/entity.py:44-46 | with unique identities, each tank is found by its own identity |
| Entity.TankDeviceInfo | custom_components/ferrellgas/entity.py:27-40 | the identifier is always (domain, identity) and the manufacturer "Ferrellgas"; a found tank gives "<site> - <description>" with the description as model; otherwise the bare identity and "Ferrellgas Tank" |
| Entity.DeviceIdentifierIgnoresLookup | custom_components/ferrellgas/entity.py:35-36 | the device identifier does not depend on whether the tank was found |
| Entity.TankEntity.constructor | custom_components/ferrellgas/entity.py:18-40 | stores coordinator and identity, and derives the device info from the tank found at construction |
| Entity.TankEntity.Tank | custom_components/ferrellgas/entity.py:42-47 | re-resolves the tank in the coordinator's current data |
| Entity.TankEntity.Available | custom_components/ferrellgas/entity.py:49-52 | available exactly when the last refresh succeeded and the current data holds a tank with this identity |
| Sensor.CurrentGallons | custom_components/ferrellgas/sensor.py:51-55 | gallons in the tank are known exactly when the percentage and the full capacity are |
| Sensor.GallonsUsed | custom_components/ferrellgas/sensor.py:155-167 | usage is known exactly when the fill capacity and current gallons are known and the tank holds no more than its fill level; the usage is then non-negative and adds up with current gallons to the fill capacity |
| Sensor.ValueFn | custom_components/ferrellgas/sensor.py:38-196 | estimated gallons, value, usage and usage cost are the rounding of current gallons, gallons × delivery price, usage and usage × delivery price, each present exactly when its inputs are; every delivery sensor is empty without a delivery record, and with one reports its completion date, gallons, price per gallon or grand total |
| Sensor.PassThroughSensors | custom_components/ferrellgas/sensor.py:38-102 | tank level, tank capacity, fill capacity and reading date report their tank field unchanged |
| Sensor.EstimatedValueNeedsGallons | custom_components/ferrellgas/sensor.py:46-80 | an estimated value is only reported when estimated gallons are |
| Sensor.UsageCostNeedsUsage | custom_components/ferrellgas/sensor.py:149-195 | a usage cost is only reported when usage is; a tank above its fill level reports neither |
| Sensor.WorkedFigures | custom_components/ferrellgas/sensor.py:46-195 | 40% of 500 gallons is 200 gallons, worth 500 at 2.50; a fill of 450 means 250 gallons used; a fill of 100 reports no usage |
| Sensor.ValueFnAsWritten | custom_components/ferrellgas/sensor.py:58-195 | as written, every delivery sensor raises `AttributeError`; estimated value raises exactly when current gallons are known, and usage cost exactly when fill capacity, percentage and full capacity are; otherwise those two report no value; the other sensors agree with the intended values |
| Sensor.ParsedTanksRaiseAsWritten | custom_components/ferrellgas/sensor.py:103-148 | for every tank the parser produces, each delivery sensor raises as written, where the intended sensor reports no value |
| Sensor.TankSensor.constructor | custom_components/ferrellgas/sensor.py:233-244 | binds the tank entity and description; the unique id is `<entry_id>_<identity>_<key>`; the entity's device info is the tank device info of the tank found at construction |
| Sensor.TankSensor.NativeValue | custom_components/ferrellgas/sensor.py:246-252 | no value when the tank is gone from the current data, else the description's value for the current tank |
| Sensor.AccountBalanceSensor.constructor | custom_components/ferrellgas/sensor.py:263-273 | the device is `account_<id>`, named "Ferrellgas Account <id>" with model "Customer Account"; the unique id is `<entry_id>_account_balance` |
| Sensor.AccountBalanceSensor.NativeValue | custom_components/ferrellgas/sensor.py:275-278 | the balance of the current data |
| Sensor.TankPlan | custom_components/ferrellgas/sensor.py:219-222 | one entry per description, in declaration order, all for the given tank |
| Sensor.SensorPlanAt | custom_components/ferrellgas/sensor.py:218-222 | the plan has 12·n entries, and entry 12·i + j is tank i with description j |
| Sensor.TankSensorsFor | custom_components/ferrellgas/sensor.py:219-222 | the inner loop creates one sensor per description for the tank, each bound to the coordinator with its unique id |
| Sensor.SetupEntry | custom_components/ferrellgas/sensor.py:207-225 | creates the balance sensor, with unique id `<entry_id>_account_balance` and device `account_<id>`, and then exactly the planned tank sensors, 12 per tank, in tank and declaration order |
| BinarySensor.Threshold | custom_components/ferrellgas/binary_sensor.py:63-68 | the configured threshold option, else the default of 20 |
| BinarySensor.ThresholdIsStrict | custom_components/ferrellgas/binary_sensor.py:69 | the comparison is strict: a tank exactly at the threshold is not low, one below it is |
| BinarySensor.LowPropaneSensor.constructor | custom_components/ferrellgas/binary_sensor.py:45-54 | binds the tank entity; the unique id is `<entry_id>_<identity>_low_propane`; the entity's device info is the tank device info of the tank found at construction |
| BinarySensor.LowPropaneSensor.IsOn | custom_components/ferrellgas/binary_sensor.py:56-69 | unknown exactly when the tank is gone or has no percentage; otherwise on exactly when the percentage is strictly below the threshold |
| BinarySensor.SetupEntry | custom_components/ferrellgas/binary_sensor.py:25-37 | one low-propane sensor per tank, in tank order, each bound to the coordinator with its unique id |

## Left out

- Transport is not modelled: the HTTP session, timeouts, the URLs and the request payloads. The wrapping of `aiohttp.ClientError` into a connection error is also out. A response enters the model as its status, its body text and its decoded JSON.
- The login and account-summary calls are not modelled as a sequence of requests. Only their checks and their parsing are (`Api.CheckLogin`, `Api.AccountIds`, `AccountSummary.ParseAccountSummary`).
- `dt_util.parse_datetime` and `date.fromisoformat` are parameters, not ISO 8601 parsers. `date.fromisoformat` raising `ValueError` is a parser that returns None.
- Python's `round` is a parameter. Float arithmetic is exact real arithmetic, so binary rounding and precision are not captured.
- Api.ToFloat: it does not model the `OverflowError` that `float()` raises for an integer too large for a double. It does not model NaN or infinities either.
- Json.Repr: strings inside a list or dict are quoted without escaping, and a float's text is carried with the value rather than computed.
- The config flow, options flow, coordinator and integration setup are not part of this model. The coordinator appears only as the entry id, options, data and refresh status the entities read.
- The option map holds integers. The `int()` conversion of other option values is not modelled; the options flow already coerces to an integer between 1 and 100.
- Entity names, icons, units, device and state classes, and translation keys are metadata with no behaviour. They are left out.
- The order and delivery endpoint constants are declared but never called, so they are out.
- Tank identities are not deduplicated. `AccountSummaryFacts.DuplicateIdentitiesAreKept` shows duplicates survive, and `Entity.FindTank` then resolves to the first of them.
- JSON objects are read as having distinct keys. Python's decoder keeps the last of repeated keys, while `Json.Lookup` takes the first entry.

## Findings

| source | as written | input that shows it | evidently intended | confidence | as-written member | corrected member |
|---|---|---|---|---|---|---|
| custom_components/ferrellgas/api.py:146-149 | `response.json(content_type=None)` skips the content-type check, so `ContentTypeError` is never raised; a body that is not JSON raises the decoder's `JSONDecodeError`, which is not a `FerrellgasApiError` | status 200 with body `<html>` | an API error "API returned non-JSON response" | high, not executed | Api.HandleResponseAsWritten | Api.HandleResponse |
| custom_components/ferrellgas/sensor.py:58-195 | `FerrellgasTankData` (api.py:36-48) is a slots dataclass with no `last_delivery` field, so every value function that reads `tank.last_delivery` raises `AttributeError` | any parsed tank, for last delivery date, gallons, price or total; a tank with percentage and full capacity, for estimated value | no value when there is no delivery record, and the delivery-based figures otherwise | high, not executed | Sensor.ValueFnAsWritten | Sensor.ValueFn |
