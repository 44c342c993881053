/** The ordered country -> cities table of the app, the flattened city list
    that fixes the one-hot column order, and the city/country validation. */
module Geography {

  import opened Wrappers

  /** One key/value pair of the ordered dictionary. */
  datatype Entry = Entry(country: string, cities: seq<string>)

  predicate DistinctKeys(entries: seq<Entry>) {
    forall i, j :: 0 <= i < j < |entries| ==> entries[i].country != entries[j].country
  }

  /** An insertion-ordered dictionary from country to its ordered cities:
      a list of entries in which no country appears twice. */
  type Table = entries: seq<Entry> | DistinctKeys(entries) witness []

  /** The app's fixed table, in declaration order. */
  const CountryCityMap: Table := [
    Entry("USA", ["Los Angeles", "New York"]),
    Entry("India", ["Chennai", "Delhi", "Mumbai"]),
    Entry("UAE", ["Dubai"]),
    Entry("UK", ["London"]),
    Entry("Australia", ["Sydney"]),
    Entry("China", ["Shanghai"])
  ]

  /** The flattened city list of CountryCityMap, written out. */
  const MapCityColumns: seq<string> := [
    "Los Angeles", "New York", "Chennai", "Delhi", "Mumbai",
    "Dubai", "London", "Sydney", "Shanghai"
  ]

  predicate NoDuplicates(s: seq<string>) {
    forall i, j :: 0 <= i < j < |s| ==> s[i] != s[j]
  }

  /** Dictionary indexing: the cities stored under `country`, or None where
      the dictionary would raise a KeyError. */
  function Lookup(t: seq<Entry>, country: string): (r: Option<seq<string>>)
    ensures r.None? <==> forall i :: 0 <= i < |t| ==> t[i].country != country
    ensures r.Some? ==> exists i :: 0 <= i < |t| && t[i].country == country && t[i].cities == r.value
  {
    if t == [] then None
    else if t[0].country == country then Some(t[0].cities)
    else Lookup(t[1..], country)
  }

  /** The lookup of the i-th key yields the i-th value. */
  lemma LookupAt(t: Table, i: nat)
    requires i < |t|
    ensures Lookup(t, t[i].country) == Some(t[i].cities)
  {
  }

  /** The dictionary's values, in order (`country_city_map.values()`). */
  function Values(t: seq<Entry>): (vs: seq<seq<string>>)
    ensures |vs| == |t|
  {
    if t == [] then [] else [t[0].cities] + Values(t[1..])
  }

  /** Python's `sum(lists, start)`: `start + lists[0] + lists[1] + ...`,
      folded from the left. */
  function Sum(lists: seq<seq<string>>, start: seq<string>): seq<string>
  {
    if lists == [] then start else Sum(lists[1..], start + lists[0])
  }

  /** Reference definition of the flattened list: each country's cities
      followed by those of the countries declared after it. */
  function Flatten(t: seq<Entry>): seq<string>
  {
    if t == [] then [] else t[0].cities + Flatten(t[1..])
  }

  /** Total number of cities over all countries. */
  function TotalCities(t: seq<Entry>): nat
  {
    if t == [] then 0 else |t[0].cities| + TotalCities(t[1..])
  }

  /** Number of cities declared before the i-th country. */
  function Offset(t: seq<Entry>, i: nat): nat
    requires i <= |t|
  {
    TotalCities(t[..i])
  }

  lemma {:induction false} SumAppends(lists: seq<seq<string>>, start: seq<string>)
    ensures Sum(lists, start) == start + Sum(lists, [])
  {
    if lists != [] {
      SumAppends(lists[1..], start + lists[0]);
      SumAppends(lists[1..], [] + lists[0]);
      assert [] + lists[0] == lists[0];
    }
  }

  /** The left fold of `sum` over the values computes the order-preserving
      concatenation. */
  lemma {:induction false} SumValuesIsFlatten(t: seq<Entry>)
    ensures Sum(Values(t), []) == Flatten(t)
  {
    if t != [] {
      assert Values(t)[1..] == Values(t[1..]);
      assert [] + t[0].cities == t[0].cities;
      SumAppends(Values(t[1..]), t[0].cities);
      SumValuesIsFlatten(t[1..]);
    }
  }

  lemma {:induction false} FlattenLength(t: seq<Entry>)
    ensures |Flatten(t)| == TotalCities(t)
  {
    if t != [] { FlattenLength(t[1..]); }
  }

  /** The one-hot column order, `sum(country_city_map.values(), [])`: every
      country's cities, in declaration order, as many as there are in all. */
  function AllCities(t: seq<Entry>): (all: seq<string>)
    ensures all == Flatten(t)
    ensures |all| == TotalCities(t)
  {
    SumValuesIsFlatten(t);
    FlattenLength(t);
    Sum(Values(t), [])
  }

  lemma {:induction false} FlattenMembership(t: seq<Entry>, city: string)
    ensures city in Flatten(t) <==> exists i :: 0 <= i < |t| && city in t[i].cities
  {
    if t != [] {
      FlattenMembership(t[1..], city);
      if city in Flatten(t[1..]) {
        var i :| 0 <= i < |t[1..]| && city in t[1..][i].cities;
        assert t[i + 1] == t[1..][i];
      }
      if exists i :: 0 <= i < |t| && city in t[i].cities {
        var i :| 0 <= i < |t| && city in t[i].cities;
        if i > 0 { assert t[1..][i - 1] == t[i]; }
      }
    }
  }

  /** A city is a one-hot column exactly when some country lists it. */
  lemma AllCitiesMembership(t: Table, city: string)
    ensures city in AllCities(t) <==> exists i :: 0 <= i < |t| && city in t[i].cities
  {
    FlattenMembership(t, city);
  }

  lemma {:induction false} FlattenAt(t: seq<Entry>, i: nat, j: nat)
    requires i < |t| && j < |t[i].cities|
    ensures Offset(t, i) + j < |Flatten(t)|
    ensures Flatten(t)[Offset(t, i) + j] == t[i].cities[j]
  {
    FlattenLength(t);
    FlattenLength(t[1..]);
    if i == 0 {
      assert t[..0] == [];
    } else {
      assert t[1..][i - 1] == t[i];
      FlattenAt(t[1..], i - 1, j);
      assert t[..i] == [t[0]] + t[1..][..i - 1];
      assert t[..i][1..] == t[1..][..i - 1];
      assert Offset(t, i) == |t[0].cities| + Offset(t[1..], i - 1);
    }
  }

  /** The j-th city of the i-th country sits in column Offset(t, i) + j:
      the flattening keeps declaration order. */
  lemma AllCitiesAt(t: Table, i: nat, j: nat)
    requires i < |t| && j < |t[i].cities|
    ensures Offset(t, i) + j < |AllCities(t)|
    ensures AllCities(t)[Offset(t, i) + j] == t[i].cities[j]
  {
    FlattenAt(t, i, j);
  }

  lemma {:induction false} OffsetGrows(t: seq<Entry>, i: nat)
    requires i < |t|
    ensures Offset(t, i) + |t[i].cities| <= Offset(t, i + 1)
  {
    if i == 0 {
      assert t[..1] == [t[0]] && t[..0] == [];
      assert t[..1][1..] == [];
    } else {
      OffsetGrows(t[1..], i - 1);
      assert t[1..][i - 1] == t[i];
      assert t[..i][1..] == t[1..][..i - 1];
      assert t[..i + 1][1..] == t[1..][..i];
    }
  }

  lemma {:induction false} OffsetMonotone(t: seq<Entry>, i: nat, k: nat)
    requires i <= k <= |t|
    ensures Offset(t, i) <= Offset(t, k)
    decreases k - i
  {
    if i < k {
      OffsetGrows(t, i);
      OffsetMonotone(t, i + 1, k);
    }
  }

  /** When the flattened list has no duplicates, every city is listed under
      exactly one country. */
  lemma CityUnderOneCountry(t: Table, i: nat, k: nat, city: string)
    requires NoDuplicates(AllCities(t))
    requires i < |t| && k < |t| && city in t[i].cities && city in t[k].cities
    ensures i == k
  {
    if i != k {
      var a, b := if i < k then i else k, if i < k then k else i;
      var ja :| 0 <= ja < |t[a].cities| && t[a].cities[ja] == city;
      var jb :| 0 <= jb < |t[b].cities| && t[b].cities[jb] == city;
      AllCitiesAt(t, a, ja);
      AllCitiesAt(t, b, jb);
      OffsetGrows(t, a);
      OffsetMonotone(t, a + 1, b);
      assert false;
    }
  }

  /** Outcome of the membership check on the predict action. */
  datatype Validation =
    | Accepted
    | InvalidCity(city: string, country: string)   // error shown, nothing else happens
    | UnknownCountry(country: string)              // the dictionary lookup raises KeyError

  /** `city not in country_city_map[country]` decides the outcome: a city
      listed under the country is accepted, any other city is rejected naming
      both, and a country that is not a key raises. */
  function Validate(t: Table, country: string, city: string): (v: Validation)
    ensures v == Accepted <==> exists i :: 0 <= i < |t| && t[i].country == country && city in t[i].cities
    ensures v == UnknownCountry(country) <==> forall i :: 0 <= i < |t| ==> t[i].country != country
    ensures v.InvalidCity? ==> v == InvalidCity(city, country)
    ensures v.Accepted? || v.InvalidCity? || v == UnknownCountry(country)
  {
    match Lookup(t, country)
    case None => UnknownCountry(country)
    case Some(cities) => if city in cities then Accepted else InvalidCity(city, country)
  }

  /** Every city listed under a country passes validation for that country. */
  lemma ListedCityAccepted(t: Table, i: nat, city: string)
    requires i < |t| && city in t[i].cities
    ensures Validate(t, t[i].country, city) == Accepted
  {
  }

  /** A city missing from the country's list is rejected, naming both. */
  lemma UnlistedCityRejected(t: Table, i: nat, city: string)
    requires i < |t| && city !in t[i].cities
    ensures Validate(t, t[i].country, city) == InvalidCity(city, t[i].country)
  {
  }

  /** Accepted means: the country is a key, and the city is a column of
      the one-hot segment. Any other outcome is an error. */
  lemma AcceptedCityIsColumn(t: Table, country: string, city: string)
    requires Validate(t, country, city) == Accepted
    ensures exists i :: 0 <= i < |t| && t[i].country == country && city in t[i].cities
    ensures city in AllCities(t)
  {
    AllCitiesMembership(t, city);
  }

  /** The app's nine cities are pairwise different. */
  lemma MapCityColumnsDistinct()
    ensures NoDuplicates(MapCityColumns)
  {
    var c := MapCityColumns;
    forall i, j | 0 <= i < j < |c| ensures c[i] != c[j] {
      assert |c[i]| != |c[j]| || c[i][1] != c[j][1];
    }
  }

  /** The app's table flattens to the nine cities in declaration order. */
  lemma CountryCityMapColumns()
    ensures AllCities(CountryCityMap) == MapCityColumns
    ensures TotalCities(CountryCityMap) == 9
  {
    var t := CountryCityMap;
    assert Flatten(t[5..]) == ["Shanghai"];
    assert Flatten(t[4..]) == ["Sydney", "Shanghai"];
    assert Flatten(t[3..]) == ["London", "Sydney", "Shanghai"];
    assert Flatten(t[2..]) == ["Dubai", "London", "Sydney", "Shanghai"];
    assert Flatten(t[1..]) == ["Chennai", "Delhi", "Mumbai", "Dubai", "London", "Sydney", "Shanghai"];
  }

  /** The concrete table: the nine cities in declaration order, none
      repeated. (Its keys are distinct by its type.) */
  lemma CountryCityMapShape()
    ensures AllCities(CountryCityMap) == MapCityColumns
    ensures TotalCities(CountryCityMap) == 9
    ensures NoDuplicates(AllCities(CountryCityMap))
  {
    CountryCityMapColumns();
    MapCityColumnsDistinct();
  }
}
