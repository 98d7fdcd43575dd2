# mapMe: city store and country list

This project models the two pieces of logic of the mapMe city-tracking UI and proves properties about them.

- **The city store** (module `CitiesContext`, `cities_context.dfy`). The store state is the record `{cities, isLoading, currentCity, error}`. Its reducer `Reduce` has six named transitions: `loading`, `cities/loaded`, `city/loaded`, `city/created`, `city/deleted` and `rejected`. An unknown tag makes the reducer throw. The default branch spreads the initial-state object into an array, and a plain object is not iterable. The model returns `Err(NotIterable)` for that case.
  The store itself is the class `Store`, whose `state` field is its single state cell. Each of the four asynchronous operations (`fetchCities`, `getCity`, `createCity`, `DeleteCity`) dispatches `loading` and then exactly one settling action. That action is the success action or `rejected` with the operation's fixed message. The outcome of the network request is a parameter (`Response<T>`, or a boolean for the delete, whose response body is never read). The central fact is `RunOperation`: once any settling action follows it, the intermediate `loading` step leaves no trace. A failed operation therefore changes only `error` and `isLoading`.
- **The country list** (module `CountryList`, `country_list.dfy`). The `cities.reduce` scans the cities left to right. It appends `{country, emoji}` only when the accumulator does not already name that country. The reduce reads only `country` and `emoji`, so `Dedup` works on the projected entries, and `CountryListOf(cities)` is `Dedup(Project(cities))`. `Dedup` recurses on prefixes: reducing a list is one more step after reducing all but its last element, which is the left-to-right order of `reduce`. `ChooseView` is the component's choice between the spinner, the empty-list message and the list.

## Model

| member | source | states |
|---|---|---|
| `CitiesContext.Reduce` | src/contexts/CitiesContext.jsx:14-61 | Only `loading` raises `isLoading`, and every other known action lowers it. Only `rejected` sets `error`, to its payload; every other known action clears it. `cities` is kept by `loading`, `city/loaded` and `rejected`, replaced by `cities/loaded`, extended at the end by `city/created` (old list as prefix, payload last) and filtered by `city/deleted` (no survivor has the id). `currentCity` is kept by `loading`, `cities/loaded` and `rejected`, set to the payload by `city/loaded` and `city/created`, and emptied by `city/deleted`. An unknown tag is a failure and never a state. |
| `CitiesContext.Without` | src/contexts/CitiesContext.jsx:49 | The filtered list is no longer than the input. It holds exactly the input cities whose id differs from the deleted id. |
| `CitiesContext.WithoutAppend` | src/contexts/CitiesContext.jsx:49 | Filtering distributes over concatenation, so the survivors keep their relative order. |
| `CitiesContext.WithoutSingle` | src/contexts/CitiesContext.jsx:49 | A one-city list loses its city exactly when the ids match. With `WithoutAppend` this determines the filter completely. |
| `CitiesContext.WithoutIdentity` | src/contexts/CitiesContext.jsx:49 | Deleting leaves the list unchanged if and only if no city has the deleted id. |
| `CitiesContext.CreatedOnce` | src/contexts/CitiesContext.jsx:36-43 | Creating adds exactly one occurrence of the city to the list, so a city that was not already in the list occurs in it exactly once afterwards. |
| `CitiesContext.RunOperation` | src/contexts/CitiesContext.jsx:70-123 | `loading` followed by any action other than `loading` gives the same result as that action alone, ending with `isLoading` false. After `rejected`, `cities` and `currentCity` are their pre-call values and `error` is the message. |
| `CitiesContext.ErrorMessage` | src/contexts/CitiesContext.jsx:76-121 | Each operation's failure message is non-empty. |
| `CitiesContext.Operation.Failed` | src/contexts/CitiesContext.jsx:70-123 | An operation's request fails (its `catch` block runs) exactly when the operation dispatches `rejected` after `loading`. |
| `CitiesContext.Settlement` | src/contexts/CitiesContext.jsx:70-122 | After `loading`, an operation dispatches neither `loading` nor an unknown tag. When it dispatches `rejected`, the payload is the operation's fixed message. |
| `CitiesContext.OperationSettles` | src/contexts/CitiesContext.jsx:70-122 | Every operation's two-step run yields a state with `isLoading` false. `error` is the operation's message if the request failed and empty otherwise. |
| `CitiesContext.FailedOperationKeepsData` | src/contexts/CitiesContext.jsx:70-123 | A failed operation's run equals the old state with `isLoading` false and `error` set to that operation's message. |
| `CitiesContext.Store.constructor` | src/contexts/CitiesContext.jsx:5-10 | The store starts with no cities, not loading, no current city and no error. |
| `CitiesContext.Store.Perform` | src/contexts/CitiesContext.jsx:70-123 | Dispatching `loading` and then the settling action leaves the state that `RunOperation` gives, with `isLoading` false. On failure only `error` and `isLoading` change. |
| `CitiesContext.Store.FetchCities` | src/contexts/CitiesContext.jsx:70-79 | On success the cities are replaced by the response and `error` is cleared. On failure only `error` (set to "unable to fetch data") and `isLoading` change. `isLoading` ends false either way. |
| `CitiesContext.Store.GetCity` | src/contexts/CitiesContext.jsx:83-92 | On success `currentCity` is the response and the cities are unchanged. On failure only `error` ("unable to fetch city data") and `isLoading` change. |
| `CitiesContext.Store.CreateCity` | src/contexts/CitiesContext.jsx:94-108 | On success the response is appended to the cities, becomes `currentCity` and is returned. On failure nothing is returned and only `error` ("unable to create a city") and `isLoading` change. |
| `CitiesContext.Store.DeleteCity` | src/contexts/CitiesContext.jsx:110-123 | On success the cities with the id are removed (no survivor has it) and `currentCity` is emptied. On failure only `error` ("There was an error deleting the city") and `isLoading` change. |
| `CountryList.Project` | src/components/CountryList.jsx:16 | Each city contributes `{country, emoji}` at its own index, so the entries name exactly the cities' countries. |
| `CountryList.CountryNames` | src/components/CountryList.jsx:13 | The country of every accumulated entry is among the names `includes` searches. |
| `CountryList.CountryNamesFromEntries` | src/components/CountryList.jsx:13 | Every name `includes` searches is the country of some accumulated entry. |
| `CountryList.StepInvariant` | src/components/CountryList.jsx:13-17 | `Step`, the reduce callback, returns the accumulator or the accumulator with the entry appended. Its countries become the old ones plus the entry's country, and an accumulator without duplicate countries stays without them. |
| `CountryList.CountryListOf` | src/components/CountryList.jsx:12-18 | The `countries` value has no more entries than there are cities, is empty exactly when there are no cities, and never names a country twice. |
| `CountryList.Dedup` | src/components/CountryList.jsx:12-18 | The result is no longer than the input, is empty exactly when the input is, and holds only entries of the input. |
| `CountryList.FirstIndex` | src/components/CountryList.jsx:13 | Gives the index of the first entry naming a country that occurs in the list: it names that country and no earlier entry does. |
| `CountryList.DedupCountries` | src/components/CountryList.jsx:12-18 | The result names exactly the countries of the input: every input country appears and every listed country comes from the input. |
| `CountryList.DedupDistinct` | src/components/CountryList.jsx:13-16 | No two entries of the result name the same country. |
| `CountryList.DedupFirstOccurrences` | src/components/CountryList.jsx:13-16 | Each entry is the input's first entry for its country, so its emoji is that first occurrence's. Entries come in the order of the first occurrences. |
| `CountryList.DedupLength` | src/components/CountryList.jsx:12-18 | The result's length is the number of distinct countries, which is at most the input length. |
| `CountryList.DedupOfDistinct` | src/components/CountryList.jsx:12-18 | An input whose countries are pairwise distinct comes out unchanged. |
| `CountryList.DedupIdempotent` | src/components/CountryList.jsx:12-18 | Deduplicating the result again changes nothing. |
| `CountryList.CountryListOfCities` | src/components/CountryList.jsx:12-18 | For a city list, the country list names exactly the cities' countries, and its length is the number of distinct countries, which is at most the number of cities. Each entry has the country and emoji of the first city of its country. Cities with pairwise distinct countries give their own `{country, emoji}` entries in order. |
| `CountryList.ChooseView` | src/components/CountryList.jsx:9-18 | The spinner shows exactly while loading. The empty-list message shows exactly when not loading and there are no cities. Otherwise the list shows the deduplicated countries, and it is never empty. |

## Left out

- Network I/O (`fetch`, `res.json()`, `JSON.stringify`, HTTP methods and headers, the `URL` constant) is reduced to each operation's outcome: a `Response` with an opaque payload, or a boolean for the delete. A request that never settles is not modelled.
- `Thrown` covers only a `fetch` that rejects (a network failure) or a body that `res.json()` cannot parse. The code never checks `res.ok`. So an HTTP error response whose body parses as JSON is dispatched as the success payload. The model assumes that payload is a city or a list of cities and does not model other JSON shapes.
- For the same reason, a DELETE that the server answers with an error status still removes the city locally and clears the error. In the model that is `Store.DeleteCity` with `resolved` true. So the catch block's message "There was an error deleting the city" appears only on a network failure; a removal the server refuses still drops the city from the list.
- The request arguments of `getCity(id)` and `createCity(city)` only shape the HTTP request. The store only sees the response, so they are not parameters of `Store.GetCity` and `Store.CreateCity`. Which city the backend returns is not modelled.
- React machinery (`createContext`, `useReducer`, `useEffect`, `useContext`, the provider's value object, JSX rendering) is framework plumbing. The constructor models the reducer's initial state. The one `fetchCities` run on mount is `Store.FetchCities`, which the model does not invoke automatically.
- Each store method runs its two dispatches back to back. Interleaving of concurrent operations (the last dispatch wins) is not modelled, and neither is the observable in-flight state with `isLoading` true between the two dispatches.
- City ids are one type compared with plain equality. The source filters with `!==`, so an id held as a number would never match the same id passed as a string, and the city would silently stay in the list. The model does not capture that coercion.
- A city keeps only `id`, `cityName`, `country` and `emoji`. The store reads `id` and the country list reads `country` and `emoji`; `cityName` is kept only as a display field. The other display fields (date, position, notes) are left out.
- `Unknown` carries only tags outside the six the reducer has a branch for.
- The default branch of the reducer is modelled as written, as a failure. A reset or "state unchanged" fallback is not modelled.
- The store keeps `error` in its state but does not expose it to consumers. That is an interface choice, and the model keeps `error` as a field.
- The presentational components (`Spinner`, `Message`, `CountryItem`) and the CSS module are represented only by the `View` constructors.
