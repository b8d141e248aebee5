# Daily electricity price view: data pipeline model

This project models, in Dafny, the data pipeline of the price page in
`src/Framework/View/DefaultView.tsx`. The page shows one day's hourly
electricity prices (PVPC) per geographic zone. The pipeline has three parts:

- **Tier aggregation** (`getTiersByLocation`). The page keeps the points of
  one zone and reduces them to three tiers, in the order maximum, mean,
  minimum. Each extreme carries the datetime of the first point, in input
  order, whose price equals it.
- **Zone derivation** (the loop in `saveDataToState`). It lists the distinct
  `geo_id`s of the payload in first-occurrence order and attaches the list
  to the payload. The first zone is selected by default.
- **Daily cache protocol** (`getData` / `fetchDataFromApi`). The browser's
  key/value store is keyed by `today-data-<day of month>`.
  - A hit uses the cached payload.
  - A miss wipes the store and issues one request.
  - Only a status-200 response is written back.
  - Any failure sets the error message.

Modules:

- `Types` (types.dfy): price points, zones, tiers and the payload.
- `Tiers` (tiers.dfy): the aggregation as functions, and lemmas about it.
- `ZoneList` (zones.dfy): the zone list as a specification function, the
  imperative loop that computes it, and the lemmas that characterise it.
- `Decimal` (decimal.dfy): decimal rendering of the day number and its
  inverse. The cache key is built from it.
- `DefaultView` (default_view.dfy): the page's state as a class, `HomePage`.
  - It holds the store (`map<string, Payload>`), `pvpcData`, `location`,
    `error` and `tiers`.
  - It counts the remote requests it issues.
  - Its methods mirror `getData`, `fetchDataFromApi`, `saveDataToState` and
    the effect that recomputes tiers when the zone changes.
  - Two client methods show reloading on the same day and on another day.

Modelling choices:

- Prices are `real`.
- Datetimes are opaque strings.
- The current day of the month is passed to the constructor.
- The remote call's result is passed in as a `FetchOutcome`: either a
  response with a status, status text and body, or a network error with a
  message.
- The store holds payloads rather than JSON text. Serialising and then
  parsing a payload is taken to give it back unchanged.

The model follows the code as written, including where one might expect more:

- A cached entry that cannot be parsed is not treated as a cache miss. At
  line 93, `JSON.parse` is not guarded, so the model has no recovery path.
- There is no single-flight or cancellation guard. Every call to `GetData`
  that misses issues its own request.
- The cache key holds only the day of the month (line 76), while the page
  is meant to show one calendar day. An entry written on 5 January is
  still a hit on 5 February if nothing loaded the page in between, since
  only a miss clears the store. `DefaultView.LocalStorageKeyInjective` and
  `DefaultView.ReloadSameDay` state this: equal day numbers give equal
  keys, and a load with the same number reuses the stored entry.
- There is no dedicated empty-series error. For a zone without points,
  `getTiersByLocation` reads `[0].datetime` of an empty array and throws a
  `TypeError`. `Tiers.GetTiersByLocation` returns `None` in exactly that
  case. `DefaultView.ListedZoneHasTiers` shows that the page never reaches
  it, because the selected zone is always one of the listed zones.

## Model

| member | source | states |
|---|---|---|
| `Tiers.ZoneValues` | src/Framework/View/DefaultView.tsx:40 | the zone subset holds exactly the points of the input whose `geo_id` is the zone's, and is no longer than the input |
| `Tiers.ZoneValuesAppend` | src/Framework/View/DefaultView.tsx:40 | filtering by zone distributes over concatenation, so the subset keeps the points' relative order |
| `Tiers.AtValue` | src/Framework/View/DefaultView.tsx:60-72 | the filter by price holds exactly the points whose value equals the given price |
| `Tiers.AtValueFirst` | src/Framework/View/DefaultView.tsx:60-72 | when some point has the price, element `[0]` of the filter is the earliest such point in input order |
| `Tiers.Max` | src/Framework/View/DefaultView.tsx:50 | `Math.max` of a non-empty list is one of its elements and is at least every element |
| `Tiers.Min` | src/Framework/View/DefaultView.tsx:53 | `Math.min` of a non-empty list is one of its elements and is at most every element |
| `Tiers.Average` | src/Framework/View/DefaultView.tsx:45-47 | the mean times the number of prices equals their sum, as computed by the reduce |
| `Tiers.MeanBetween` | src/Framework/View/DefaultView.tsx:45-53 | for a non-empty list, minimum <= mean <= maximum |
| `Tiers.GetTiersByLocation` | src/Framework/View/DefaultView.tsx:38-75 | there are no tiers (the source throws) exactly when the zone has no points; otherwise there are exactly three, of classes maximum, mean and minimum in that order, and only the mean has no hour |
| `Tiers.TierExtremes` | src/Framework/View/DefaultView.tsx:49-53 | the maximum tier's price bounds every point of the zone from above and is carried by one of them; the minimum tier's price does the same from below |
| `Tiers.TierMean` | src/Framework/View/DefaultView.tsx:44-47 | the mean tier's price is the sum of the zone's prices divided by the number of its points |
| `Tiers.TierOrder` | src/Framework/View/DefaultView.tsx:45-53 | the tier prices satisfy minimum <= mean <= maximum |
| `Tiers.TierHours` | src/Framework/View/DefaultView.tsx:60-72 | each extreme tier's hour is the datetime of the first point of the zone whose price equals that extreme, so ties go to the earliest point |
| `Tiers.TieBreakExample` | src/Framework/View/DefaultView.tsx:55-74 | on a zone with a tied maximum at 12:00 and 18:00 and another zone mixed in, the tiers are 30 at 12:00, 70/3 with no hour, and 10 at 00:00 |
| `ZoneList.DeriveGeos` | src/Framework/View/DefaultView.tsx:131-143 | the loop over the values, with its `geo_ids` membership test, returns exactly the zone list `Zones(values)` |
| `ZoneList.ZonesUnique` | src/Framework/View/DefaultView.tsx:135-136 | no `geo_id` is listed twice |
| `ZoneList.ZonesComplete` | src/Framework/View/DefaultView.tsx:134-143 | the `geo_id` of every value is listed |
| `ZoneList.ZonesSound` | src/Framework/View/DefaultView.tsx:134-143 | every listed zone has the id and the `geo_name` of the first value that carries its id |
| `ZoneList.ZonesOrdered` | src/Framework/View/DefaultView.tsx:134-143 | the zones are listed in the order in which their ids first occur in the values |
| `ZoneList.ZonesHead` | src/Framework/View/DefaultView.tsx:145-148 | the list is empty exactly when there are no values; otherwise it starts with the zone of the first value |
| `Decimal.DecimalString` | src/Framework/View/DefaultView.tsx:76 | the day number is rendered as a non-empty string of decimal digits with no leading zero |
| `Decimal.ParseDecimalString` | src/Framework/View/DefaultView.tsx:76 | reading the rendered digits back gives the number |
| `Decimal.DecimalStringInjective` | src/Framework/View/DefaultView.tsx:76 | two numbers have the same rendering exactly when they are equal |
| `DefaultView.LocalStorageKeyInjective` | src/Framework/View/DefaultView.tsx:76 | two days of the month share a cache key exactly when they have the same number; an entry written on another day number is never a hit, but one written on the same date of an earlier month is |
| `DefaultView.DefaultLocationIsFirstValue` | src/Framework/View/DefaultView.tsx:145-148 | the default zone is undefined exactly when there are no values, and otherwise is the zone of the first value |
| `DefaultView.ListedZoneHasTiers` | src/Framework/View/DefaultView.tsx:153-156 | every listed zone has points, so computing its tiers does not throw |
| `DefaultView.HomePage.constructor` | src/Framework/View/DefaultView.tsx:76-82 | a fresh page has the day's key, the existing store, no data, no zone, no error, no tiers and no requests |
| `DefaultView.HomePage.SaveDataToState` | src/Framework/View/DefaultView.tsx:130-149 | the payload is kept with its derived zone list attached, and the selected zone becomes `geos[0]` |
| `DefaultView.HomePage.FetchDataFromApi` | src/Framework/View/DefaultView.tsx:106-127 | exactly one request is issued. Status 200: the payload (with zones) is saved and written under the day key, and nothing else in the store changes. Any other status: the error is the status text. Network error: the error is the message. On failure the store and the data are untouched |
| `DefaultView.HomePage.GetData` | src/Framework/View/DefaultView.tsx:84-96 | hit: no request, store unchanged, cached payload shown. Miss: exactly one request. After status 200 the store holds only the new entry under the day key. Otherwise the store is empty and the error is set |
| `DefaultView.HomePage.UpdateTiers` | src/Framework/View/DefaultView.tsx:153-167 | with data and a selected zone, the tiers become those of that zone, and computing them does not throw; otherwise they are unchanged. The page invariant (zones derived from the values, selected zone listed) is kept |
| `DefaultView.ReloadSameDay` | src/Framework/View/DefaultView.tsx:84-96 | a second page load with the same day-of-month number (the same day, or the same date a month later) issues no request and shows the payload the first load stored |
| `DefaultView.ReloadNextDay` | src/Framework/View/DefaultView.tsx:84-88 | a page load with another day-of-month number does not reuse the old entry: it issues one request, and the store then holds only the new day's entry |

## Left out

- JSX rendering and MUI layout (lines 169-305) are not modelled. The same
  goes for `DailyCostChart.tsx`, `PageWrapper.tsx` and `RouteService.tsx`.
  They are presentation and routing, with no data logic.
- The zone dropdown's `onChange` (lines 222-224) is not modelled. It is UI
  wiring. `ListedZoneHasTiers` covers any zone it can select from `geos`.
- React's `useState` / `useEffect` scheduling is not modelled. State
  setters are field assignments, and the effect on `location` is the
  explicit method `UpdateTiers`.
- The `fetch` transport is abstract. The model does not capture
  asynchronous interleaving. The continuation of the request runs
  immediately, inside `FetchDataFromApi`.
- A `response.json()` or `saveDataToState` failure on a malformed body is
  not modelled separately. The model has no untyped JSON. An exception
  there would reach the same `catch` as a network error.
- `JSON.stringify` / `JSON.parse` are not modelled. The store maps keys to
  payloads, and a corrupt entry cannot be represented.
- luxon's `DateTime.fromISO`, `toLocaleString` and `DateTime.now()` are not
  modelled. Datetimes stay strings, and the day is a constructor argument.
- The `mock` flag and its fixture branch (lines 16, 37, 99-103) are not
  modelled: the flag is a constant `false`.
- Tiers.GetTiersByLocation: tier prices are full-precision reals, not the
  two-decimal strings `toFixed(2)` produces. JavaScript floating-point
  rounding in the sum and the mean is not modelled.
- The effect's mapping of each tier to a pricing card (lines 155-163) is
  not modelled. It renames fields for display: `title`, `subheader: null`,
  `price`, `class`, and as `description` the hour in `TIME_SIMPLE` form or
  'Coste medio del día' for the mean. `UpdateTiers` stores the tiers
  themselves.
- The constructor stands for a full page load, which evaluates line 76
  afresh. The key is computed once, when the module is evaluated, not per
  mount. A remount in the same module instance, such as one through
  `hot(HomePage)` at line 308, keeps the old key even after midnight. The
  model does not capture that.
