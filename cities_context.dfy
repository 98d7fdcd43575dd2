/** The city store of the map UI: the state record, the reducer that is the
 *  only way that record changes, and the store whose four asynchronous
 *  operations each dispatch `loading` and then one settling action.
 *  The network is not modelled: each operation receives the outcome of its
 *  request as a parameter.
 */
module CitiesContext {

  /** Cities are identified by one type compared with plain equality. */
  type CityId = string

  /** A city record as the backend returns it. The store reads `id` and the
   *  country list reads `country` and `emoji`; `cityName` is kept only as a
   *  display field. Date, position and notes are not kept. */
  datatype City = City(id: CityId, cityName: string, country: string, emoji: string)

  /** `currentCity`: the empty object `{}`, or a city. */
  datatype Selection = NoCity | Selected(city: City)

  datatype State = State(cities: seq<City>, isLoading: bool, currentCity: Selection, error: string)

  /** The state the store starts in. */
  const InitialState := State([], false, NoCity, "")

  /** The six action tags the reducer has a branch for. */
  const KnownTags: set<string> :=
    {"loading", "cities/loaded", "city/loaded", "city/created", "city/deleted", "rejected"}

  /** Any action tag the reducer has no branch for. */
  type UnknownTag = t: string | t !in KnownTags witness ""

  /** One constructor per action tag the reducer knows, and one for any other tag. */
  datatype Action =
    | Loading
    | CitiesLoaded(cities: seq<City>)
    | CityLoaded(city: City)
    | CityCreated(city: City)
    | CityDeleted(id: CityId)
    | Rejected(message: string)
    | Unknown(tag: UnknownTag)

  /** The exception the reducer throws: spreading the initial-state object
   *  into an array fails because a plain object is not iterable. */
  datatype Fault = NotIterable

  datatype Result<T> = Ok(value: T) | Err(fault: Fault)

  datatype Option<T> = None | Some(value: T)

  /** `cities.filter(city => city.id !== id)`: the cities whose id differs from `id`. */
  function Without(cities: seq<City>, id: CityId): (r: seq<City>)
    ensures |r| <= |cities|
    ensures forall c :: c in r ==> c in cities && c.id != id
    ensures forall c :: c in cities && c.id != id ==> c in r
  {
    if cities == [] then []
    else if cities[0].id != id then [cities[0]] + Without(cities[1..], id)
    else Without(cities[1..], id)
  }

  /** Filtering distributes over concatenation: together with the one-element
   *  case this pins `Without` down as "keep, in order, exactly the cities
   *  with another id". */
  lemma {:induction false} WithoutAppend(a: seq<City>, b: seq<City>, id: CityId)
    ensures Without(a + b, id) == Without(a, id) + Without(b, id)
  {
    if a == [] {
      assert a + b == b;
    } else {
      assert (a + b)[1..] == a[1..] + b;
      WithoutAppend(a[1..], b, id);
    }
  }

  lemma WithoutSingle(c: City, id: CityId)
    ensures Without([c], id) == if c.id == id then [] else [c]
  {
  }

  /** Deleting leaves the list as it was exactly when no city has the id. */
  lemma {:induction false} WithoutIdentity(cities: seq<City>, id: CityId)
    ensures Without(cities, id) == cities <==> forall c :: c in cities ==> c.id != id
  {
    if forall c :: c in cities ==> c.id != id {
      if cities != [] {
        assert cities[0] in cities;
        assert forall c :: c in cities[1..] ==> c in cities;
        WithoutIdentity(cities[1..], id);
        assert cities == [cities[0]] + cities[1..];
      }
    }
  }

  /** The reducer. Every branch returns a fresh record built from `s` and the
   *  action's payload; an unknown tag throws. */
  function Reduce(s: State, a: Action): (r: Result<State>)
    ensures r.Err? <==> a.Unknown?
    ensures a.Unknown? ==> r == Err(NotIterable)
    // `loading` alone raises the flag; every other action lowers it
    ensures r.Ok? ==> (r.value.isLoading <==> a.Loading?)
    // `rejected` records its message; every other action clears the error
    ensures r.Ok? ==> r.value.error == (if a.Rejected? then a.message else "")
    ensures a.Loading? || a.CityLoaded? || a.Rejected? ==> r.value.cities == s.cities
    ensures a.CitiesLoaded? ==> r.value.cities == a.cities
    // `city/created` appends the payload at the end and keeps the old list as a prefix
    ensures a.CityCreated? ==>
      |r.value.cities| == |s.cities| + 1 &&
      r.value.cities[..|s.cities|] == s.cities &&
      r.value.cities[|s.cities|] == a.city
    // `city/deleted` keeps, in order, the cities with another id
    ensures a.CityDeleted? ==>
      r.value.cities == Without(s.cities, a.id) &&
      (forall c :: c in r.value.cities ==> c.id != a.id)
    ensures a.Loading? || a.CitiesLoaded? || a.Rejected? ==> r.value.currentCity == s.currentCity
    ensures a.CityLoaded? || a.CityCreated? ==> r.value.currentCity == Selected(a.city)
    ensures a.CityDeleted? ==> r.value.currentCity == NoCity
  {
    match a
    case Loading => Ok(s.(isLoading := true, error := ""))
    case CitiesLoaded(cities) => Ok(s.(isLoading := false, cities := cities, error := ""))
    case CityLoaded(city) => Ok(s.(isLoading := false, error := "", currentCity := Selected(city)))
    case CityCreated(city) =>
      Ok(s.(isLoading := false, error := "", cities := s.cities + [city], currentCity := Selected(city)))
    case CityDeleted(id) =>
      Ok(s.(isLoading := false, error := "", cities := Without(s.cities, id), currentCity := NoCity))
    case Rejected(message) => Ok(s.(error := message, isLoading := false))
    case Unknown(_) => Err(NotIterable)
  }

  /** Creating adds one more occurrence of the city, so a city that was not
   *  in the list before appears in it exactly once. */
  lemma CreatedOnce(s: State, city: City)
    ensures Reduce(s, CityCreated(city)).Ok?
    ensures multiset(Reduce(s, CityCreated(city)).value.cities)[city] ==
      multiset(s.cities)[city] + 1
    ensures city !in s.cities ==>
      multiset(Reduce(s, CityCreated(city)).value.cities)[city] == 1
  {
  }

  /** The dispatch sequence of every asynchronous operation: `loading`, then
   *  the action the request's outcome selects. */
  function RunOperation(s: State, outcome: Action): (r: Result<State>)
    ensures r.Ok? <==> !outcome.Unknown?
    // the intermediate `loading` state leaves no trace once the operation settles
    ensures !outcome.Loading? ==> r == Reduce(s, outcome)
    ensures r.Ok? && !outcome.Loading? ==> !r.value.isLoading
    ensures outcome.Rejected? ==>
      r.value.cities == s.cities &&
      r.value.currentCity == s.currentCity &&
      r.value.error == outcome.message
  {
    Reduce(Reduce(s, Loading).value, outcome)
  }

  /** The outcome of one request: the parsed response, or an exception from
   *  `fetch` or `res.json()`. The HTTP status is never checked, so an error
   *  response whose body parses counts as `Resolved`. */
  datatype Response<T> = Resolved(data: T) | Thrown

  /** The four asynchronous operations, each with the outcome of its request:
   *  `fetchCities`, `getCity`, `createCity` and `DeleteCity`. The delete's
   *  response body is never read, so only whether `fetch` resolved matters. */
  datatype Operation =
    | LoadAll(all: Response<seq<City>>)
    | LoadOne(one: Response<City>)
    | Create(created: Response<City>)
    | Remove(id: CityId, resolved: bool)
  {
    /** The request failed (the operation's `catch` block runs) exactly when
     *  the operation dispatches `rejected` after `loading`. */
    predicate Failed()
      ensures Failed() <==> Settlement(this).Rejected?
    {
      match this
      case LoadAll(res) => res.Thrown?
      case LoadOne(res) => res.Thrown?
      case Create(res) => res.Thrown?
      case Remove(_, resolved) => !resolved
    }
  }

  const FetchCitiesError := "unable to fetch data"
  const FetchCityError := "unable to fetch city data"
  const CreateCityError := "unable to create a city"
  const DeleteCityError := "There was an error deleting the city"

  /** The fixed message each operation stores when its request fails. */
  function ErrorMessage(op: Operation): (m: string)
    ensures m != ""
  {
    match op
    case LoadAll(_) => FetchCitiesError
    case LoadOne(_) => FetchCityError
    case Create(_) => CreateCityError
    case Remove(_, _) => DeleteCityError
  }

  /** The action an operation dispatches after `loading`. */
  function Settlement(op: Operation): (a: Action)
    ensures !a.Loading? && !a.Unknown?
    ensures a.Rejected? ==> a.message == ErrorMessage(op)
  {
    match op
    case LoadAll(Resolved(data)) => CitiesLoaded(data)
    case LoadOne(Resolved(data)) => CityLoaded(data)
    case Create(Resolved(data)) => CityCreated(data)
    case Remove(id, true) => CityDeleted(id)
    case _ => Rejected(ErrorMessage(op))
  }

  /** Every operation settles: it ends with the loading flag down, and with
   *  an error exactly when its request failed. */
  lemma OperationSettles(s: State, op: Operation)
    ensures RunOperation(s, Settlement(op)).Ok?
    ensures !RunOperation(s, Settlement(op)).value.isLoading
    ensures RunOperation(s, Settlement(op)).value.error ==
      (if op.Failed() then ErrorMessage(op) else "")
  {
  }

  /** A failed operation changes neither the cities nor the current city. */
  lemma FailedOperationKeepsData(s: State, op: Operation)
    requires op.Failed()
    ensures RunOperation(s, Settlement(op)).Ok?
    ensures RunOperation(s, Settlement(op)).value ==
      s.(isLoading := false, error := ErrorMessage(op))
  {
  }

  /** The store: one state cell, changed only by dispatching actions. */
  class Store {
    var state: State

    constructor ()
      ensures state == InitialState
    {
      state := InitialState;
    }

    /** Dispatches `loading`, then the action the request's outcome selects. */
    method Perform(op: Operation)
      modifies this
      ensures state == RunOperation(old(state), Settlement(op)).value
      ensures !state.isLoading
      ensures op.Failed() ==> state == old(state).(isLoading := false, error := ErrorMessage(op))
    {
      state := Reduce(state, Loading).value;
      state := Reduce(state, Settlement(op)).value;
    }

    /** `fetchCities`, run once when the provider mounts. */
    method FetchCities(res: Response<seq<City>>)
      modifies this
      ensures !state.isLoading
      ensures res.Resolved? ==>
        state == old(state).(isLoading := false, cities := res.data, error := "")
      ensures res.Thrown? ==>
        state == old(state).(isLoading := false, error := FetchCitiesError)
    {
      Perform(LoadAll(res));
    }

    /** `getCity(id)`: the id only forms the request URL. */
    method GetCity(res: Response<City>)
      modifies this
      ensures !state.isLoading
      ensures res.Resolved? ==>
        state == old(state).(isLoading := false, currentCity := Selected(res.data), error := "")
      ensures res.Thrown? ==>
        state == old(state).(isLoading := false, error := FetchCityError)
    {
      Perform(LoadOne(res));
    }

    /** `createCity(city)`: the city only forms the request body; the store
     *  appends the record the backend returns, and hands it back. */
    method CreateCity(res: Response<City>) returns (created: Option<City>)
      modifies this
      ensures !state.isLoading
      ensures created == if res.Resolved? then Some(res.data) else None
      ensures res.Resolved? ==>
        state == old(state).(isLoading := false, cities := old(state.cities) + [res.data],
                             currentCity := Selected(res.data), error := "")
      ensures res.Thrown? ==>
        state == old(state).(isLoading := false, error := CreateCityError)
    {
      Perform(Create(res));
      created := if res.Resolved? then Some(res.data) else None;
    }

    /** `DeleteCity(id)`: `resolved` says whether the DELETE request resolved. */
    method DeleteCity(id: CityId, resolved: bool)
      modifies this
      ensures !state.isLoading
      ensures resolved ==>
        state == old(state).(isLoading := false, cities := Without(old(state.cities), id),
                             currentCity := NoCity, error := "")
      ensures resolved ==> forall c :: c in state.cities ==> c.id != id
      ensures !resolved ==>
        state == old(state).(isLoading := false, error := DeleteCityError)
    {
      Perform(Remove(id, resolved));
    }
  }
}
