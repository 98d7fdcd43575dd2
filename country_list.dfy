/** The country list view: the `reduce` that turns the city list into one
 *  entry per distinct country, in order of first appearance, and the choice
 *  between the spinner, the empty-list message and the list.
 */
module CountryList {
  import opened CitiesContext

  /** `{country, emoji}`, the entry the list shows for one country. */
  datatype Summary = Summary(country: string, emoji: string)

  /** The entry a city contributes. */
  function Entry(c: City): Summary {
    Summary(c.country, c.emoji)
  }

  /** `arr.map(el => el.country)`: the list names the country of every entry,
   *  and only those. */
  function CountryNames(s: seq<Summary>): (names: seq<string>)
    ensures forall e :: e in s ==> e.country in names
  {
    var names := seq(|s|, i requires 0 <= i < |s| => s[i].country);
    assert forall i :: 0 <= i < |s| ==> names[i] == s[i].country;
    names
  }

  /** Every listed name is the country of some entry. */
  lemma CountryNamesFromEntries(s: seq<Summary>)
    ensures forall c :: c in CountryNames(s) ==> exists e :: e in s && e.country == c
  {
    forall c | c in CountryNames(s) ensures exists e :: e in s && e.country == c {
      var i :| 0 <= i < |s| && CountryNames(s)[i] == c;
      assert s[i] in s;
    }
  }

  /** The set of countries that occur in `s`. */
  function CountrySet(s: seq<Summary>): set<string> {
    set c | c in CountryNames(s)
  }

  /** The countries of a city list. */
  function CityCountries(cities: seq<City>): set<string> {
    set c | c in cities :: c.country
  }

  /** The cities projected to their entries, index by index; the entries name
   *  exactly the cities' countries. */
  function Project(cities: seq<City>): (p: seq<Summary>)
    ensures |p| == |cities|
    ensures forall i :: 0 <= i < |cities| ==> p[i] == Entry(cities[i])
    ensures CountrySet(p) == CityCountries(cities)
  {
    var p := seq(|cities|, i requires 0 <= i < |cities| => Entry(cities[i]));
    assert CountrySet(p) == CityCountries(cities) by {
      forall c | c in CountrySet(p) ensures c in CityCountries(cities) {
        var e :| e in p && e.country == c;
        var i :| 0 <= i < |p| && p[i] == e;
        assert cities[i] in cities;
      }
      forall c | c in CityCountries(cities) ensures c in CountrySet(p) {
        var city :| city in cities && city.country == c;
        var i :| 0 <= i < |cities| && cities[i] == city;
        assert p[i] in p;
      }
    }
    p
  }

  /** No two entries name the same country. */
  predicate Distinct(s: seq<Summary>) {
    forall i, j :: 0 <= i < j < |s| ==> s[i].country != s[j].country
  }

  /** One step of the `reduce`: keep the accumulator when it already names the
   *  country, otherwise append the entry. */
  function Step(acc: seq<Summary>, x: Summary): seq<Summary> {
    if x.country in CountryNames(acc) then acc else acc + [x]
  }

  /** The step adds the entry's country to the accumulator's countries, and
   *  an accumulator that names no country twice stays that way. */
  lemma StepInvariant(acc: seq<Summary>, x: Summary)
    ensures Step(acc, x) == acc || Step(acc, x) == acc + [x]
    ensures CountrySet(Step(acc, x)) == CountrySet(acc) + {x.country}
    ensures Distinct(acc) ==> Distinct(Step(acc, x))
  {
    CountryNamesSnoc(acc, x);
    if x.country !in CountryNames(acc) {
      forall i | 0 <= i < |acc| ensures acc[i].country != x.country {
        assert acc[i].country in CountryNames(acc);
      }
    }
  }

  /** The `reduce` from `[]`, left to right: reducing `xs` is one more step
   *  after reducing all but its last element. */
  function Dedup(xs: seq<Summary>): (r: seq<Summary>)
    ensures |r| <= |xs|
    ensures r == [] <==> xs == []
    ensures forall e :: e in r ==> e in xs
  {
    if xs == [] then []
    else Step(Dedup(xs[..|xs| - 1]), xs[|xs| - 1])
  }

  /** The countries shown for a city list: never more entries than cities,
   *  empty exactly when there are no cities, and no country twice. */
  function CountryListOf(cities: seq<City>): (r: seq<Summary>)
    ensures |r| <= |cities|
    ensures r == [] <==> cities == []
    ensures Distinct(r)
  {
    DedupDistinct(Project(cities));
    Dedup(Project(cities))
  }

  /** The index of the first entry naming `c`. */
  function FirstIndex(xs: seq<Summary>, c: string): (i: nat)
    requires c in CountryNames(xs)
    ensures i < |xs| && xs[i].country == c
    ensures forall j :: 0 <= j < i ==> xs[j].country != c
  {
    var p := xs[..|xs| - 1];
    if c in CountryNames(p) then FirstIndex(p, c) else |xs| - 1
  }

  /** Mapping the countries commutes with appending one entry. */
  lemma CountryNamesSnoc(p: seq<Summary>, x: Summary)
    ensures CountryNames(p + [x]) == CountryNames(p) + [x.country]
  {
  }

  /** The result names exactly the countries of the input. */
  lemma {:induction false} DedupCountries(xs: seq<Summary>)
    ensures CountrySet(Dedup(xs)) == CountrySet(xs)
  {
    if xs != [] {
      var p, x := xs[..|xs| - 1], xs[|xs| - 1];
      assert xs == p + [x];
      CountryNamesSnoc(p, x);
      assert CountrySet(xs) == CountrySet(p) + {x.country};
      DedupCountries(p);
      var r := Dedup(p);
      if x.country in CountryNames(r) {
        assert x.country in CountrySet(p);
      } else {
        CountryNamesSnoc(r, x);
        assert CountrySet(r + [x]) == CountrySet(r) + {x.country};
      }
    }
  }

  /** No country is listed twice. */
  lemma {:induction false} DedupDistinct(xs: seq<Summary>)
    ensures Distinct(Dedup(xs))
  {
    if xs != [] {
      var p, x := xs[..|xs| - 1], xs[|xs| - 1];
      DedupDistinct(p);
      StepInvariant(Dedup(p), x);
    }
  }

  /** Each entry is the first input entry of its country (so its emoji is the
   *  emoji of that first occurrence), and entries come in the order of those
   *  first occurrences. */
  lemma {:induction false} DedupFirstOccurrences(xs: seq<Summary>)
    ensures forall k :: 0 <= k < |Dedup(xs)| ==> Dedup(xs)[k].country in CountryNames(xs)
    ensures forall k :: 0 <= k < |Dedup(xs)| ==>
      Dedup(xs)[k] == xs[FirstIndex(xs, Dedup(xs)[k].country)]
    ensures forall k1, k2 :: 0 <= k1 < k2 < |Dedup(xs)| ==>
      FirstIndex(xs, Dedup(xs)[k1].country) < FirstIndex(xs, Dedup(xs)[k2].country)
  {
    if xs != [] {
      var p, x := xs[..|xs| - 1], xs[|xs| - 1];
      DedupFirstOccurrences(p);
      DedupCountries(p);
      var r := Dedup(p);
      forall k | 0 <= k < |r|
        ensures r[k].country in CountryNames(xs)
        ensures FirstIndex(xs, r[k].country) == FirstIndex(p, r[k].country)
      {
        assert CountryNames(xs)[FirstIndex(p, r[k].country)] == r[k].country;
      }
      if x.country !in CountryNames(r) {
        assert x.country !in CountrySet(p);
        assert CountryNames(xs)[|xs| - 1] == x.country;
      }
    }
  }

  /** The result has one entry per distinct country of the input, so it is
   *  never longer than the input. */
  lemma {:induction false} DedupLength(xs: seq<Summary>)
    ensures |Dedup(xs)| == |CountrySet(xs)| <= |xs|
  {
    if xs != [] {
      var p, x := xs[..|xs| - 1], xs[|xs| - 1];
      DedupLength(p);
      DedupCountries(p);
      var r := Dedup(p);
      assert xs == p + [x];
      CountryNamesSnoc(p, x);
      assert CountrySet(xs) == CountrySet(p) + {x.country};
      if x.country !in CountryNames(r) {
        assert x.country !in CountrySet(p);
      } else {
        assert x.country in CountrySet(p);
      }
    }
  }

  /** An input whose countries are already distinct passes through unchanged. */
  lemma {:induction false} DedupOfDistinct(xs: seq<Summary>)
    requires Distinct(xs)
    ensures Dedup(xs) == xs
  {
    if xs != [] {
      var p, x := xs[..|xs| - 1], xs[|xs| - 1];
      assert Distinct(p);
      DedupOfDistinct(p);
      assert x.country !in CountryNames(p) by {
        CountryNamesFromEntries(p);
        forall e | e in p ensures e.country != x.country {
          var i :| 0 <= i < |p| && p[i] == e;
          assert xs[i] == e;
        }
      }
      assert xs == p + [x];
    }
  }

  /** Deduplicating the result again changes nothing. */
  lemma {:induction false} DedupIdempotent(xs: seq<Summary>)
    ensures Dedup(Dedup(xs)) == Dedup(xs)
  {
    DedupDistinct(xs);
    DedupOfDistinct(Dedup(xs));
  }

  /** For a city list: the list names exactly the cities' countries, once
   *  each; each entry carries the country and emoji of the first city of its
   *  country; and cities with pairwise distinct countries give their own
   *  entries in their own order. */
  lemma CountryListOfCities(cities: seq<City>)
    ensures CountrySet(CountryListOf(cities)) == CityCountries(cities)
    ensures |CountryListOf(cities)| == |CityCountries(cities)| <= |cities|
    ensures forall k :: 0 <= k < |CountryListOf(cities)| ==>
      CountryListOf(cities)[k].country in CountryNames(Project(cities))
    ensures forall k :: 0 <= k < |CountryListOf(cities)| ==>
      CountryListOf(cities)[k] ==
        Entry(cities[FirstIndex(Project(cities), CountryListOf(cities)[k].country)])
    ensures Distinct(Project(cities)) ==> CountryListOf(cities) == Project(cities)
  {
    DedupCountries(Project(cities));
    DedupDistinct(Project(cities));
    DedupLength(Project(cities));
    DedupFirstOccurrences(Project(cities));
    if Distinct(Project(cities)) {
      DedupOfDistinct(Project(cities));
    }
  }

  const EmptyListMessage := "Add you first country by clicking on the map."

  /** What the component renders. */
  datatype View = Spinner | Message(text: string) | CountryItems(countries: seq<Summary>)

  /** Loading first, then the empty list, then the list of countries. */
  function ChooseView(cities: seq<City>, isLoading: bool): (v: View)
    ensures v.Spinner? <==> isLoading
    ensures v.Message? <==> !isLoading && cities == []
    ensures v.Message? ==> v.text == EmptyListMessage
    ensures v.CountryItems? ==> v.countries == CountryListOf(cities) && v.countries != []
  {
    if isLoading then Spinner
    else if |cities| == 0 then Message(EmptyListMessage)
    else CountryItems(CountryListOf(cities))
  }
}
