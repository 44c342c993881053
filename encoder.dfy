/** The feature vector handed to the regression model: nine readings, the
    USA indicator, then one column per city of the flattened table. */
module Encoder {

  import opened Geography

  /** The form's readings. Wind speed is an integer widget; the others are
      decimal widgets. */
  datatype Readings = Readings(
    pm25: real, pm10: real, no2: real, so2: real, co: real, o3: real,
    temp: real, humidity: real, windspeed: int)

  /** Number of reading columns at the head of the vector. */
  const ReadingColumns: nat := 9

  /** Column of the country indicator. */
  const CountryColumn: nat := ReadingColumns

  /** First column of the one-hot city segment. */
  const CityBase: nat := ReadingColumns + 1

  /** The one country the indicator singles out. */
  const ReferenceCountry: string := "USA"

  /** The readings, in the model's training order: pollutants, then
      weather, each value unchanged. */
  function ReadingsRow(r: Readings): (row: seq<real>)
    ensures |row| == ReadingColumns
    ensures row[0] == r.pm25 && row[1] == r.pm10 && row[2] == r.no2
    ensures row[3] == r.so2 && row[4] == r.co && row[5] == r.o3
    ensures row[6] == r.temp && row[7] == r.humidity && row[8] == r.windspeed as real
  {
    [r.pm25, r.pm10, r.no2, r.so2, r.co, r.o3, r.temp, r.humidity, r.windspeed as real]
  }

  /** `1 if country == "USA" else 0`: a flag for the reference country
      alone, 0 for every other country. */
  function CountryUsa(country: string): (flag: real)
    ensures flag == 1.0 <==> country == ReferenceCountry
    ensures flag == 0.0 <==> country != ReferenceCountry
  {
    if country == ReferenceCountry then 1.0 else 0.0
  }

  /** `[1 if city == c else 0 for c in all_cities]`: every entry is 0 or 1,
      and 1 exactly where the column's city is the chosen one. */
  function CityEncoding(allCities: seq<string>, city: string): (enc: seq<real>)
    ensures |enc| == |allCities|
    ensures forall i :: 0 <= i < |enc| ==> (enc[i] == 1.0 <==> allCities[i] == city)
    ensures forall i :: 0 <= i < |enc| ==> (enc[i] == 0.0 <==> allCities[i] != city)
  {
    if allCities == [] then []
    else [if allCities[0] == city then 1.0 else 0.0] + CityEncoding(allCities[1..], city)
  }

  /** The vector built for one prediction request: the nine readings
      unchanged and in order, the USA flag, then the one-hot city segment
      laid over the flattened city list. */
  function Encode(t: Table, r: Readings, country: string, city: string): (v: seq<real>)
    ensures |v| == CityBase + |AllCities(t)| == CityBase + TotalCities(t)
    ensures v[0] == r.pm25 && v[1] == r.pm10 && v[2] == r.no2
    ensures v[3] == r.so2 && v[4] == r.co && v[5] == r.o3
    ensures v[6] == r.temp && v[7] == r.humidity && v[8] == r.windspeed as real
    ensures v[CountryColumn] == 1.0 <==> country == ReferenceCountry
    ensures v[CountryColumn] == 0.0 <==> country != ReferenceCountry
    ensures forall i :: 0 <= i < |AllCities(t)| ==>
              (v[CityBase + i] == 1.0 <==> AllCities(t)[i] == city) &&
              (v[CityBase + i] == 0.0 <==> AllCities(t)[i] != city)
  {
    ReadingsRow(r) + [CountryUsa(country)] + CityEncoding(AllCities(t), city)
  }

  /** Number of entries of `s` equal to `x`. */
  function CountOf(s: seq<real>, x: real): (n: nat)
    ensures n <= |s|
  {
    if s == [] then 0 else (if s[0] == x then 1 else 0) + CountOf(s[1..], x)
  }

  /** First position of `x` in `s`. */
  function IndexOf(s: seq<string>, x: string): (k: nat)
    requires x in s
    ensures k < |s| && s[k] == x
    ensures forall j :: 0 <= j < k ==> s[j] != x
  {
    if s[0] == x then 0 else 1 + IndexOf(s[1..], x)
  }

  /** Over a duplicate-free column list, a listed city is encoded with
      exactly one 1 and zeros elsewhere; an unlisted one with no 1 at all. */
  lemma {:induction false} CityEncodingCount(allCities: seq<string>, city: string)
    requires NoDuplicates(allCities)
    ensures CountOf(CityEncoding(allCities, city), 1.0) == if city in allCities then 1 else 0
    ensures CountOf(CityEncoding(allCities, city), 0.0) == |allCities| - CountOf(CityEncoding(allCities, city), 1.0)
  {
    if allCities != [] {
      var enc := CityEncoding(allCities, city);
      assert enc[1..] == CityEncoding(allCities[1..], city);
      assert NoDuplicates(allCities[1..]) by {
        forall a, b | 0 <= a < b < |allCities[1..]| ensures allCities[1..][a] != allCities[1..][b] {
          assert allCities[1..][a] == allCities[a + 1] && allCities[1..][b] == allCities[b + 1];
        }
      }
      CityEncodingCount(allCities[1..], city);
      if allCities[0] == city {
        forall j | 0 <= j < |allCities[1..]| ensures allCities[1..][j] != city {
          assert allCities[1..][j] == allCities[j + 1];
        }
      } else {
        assert city in allCities[1..] <==> city in allCities;
      }
    }
  }

  /** In a duplicate-free list, a city occurs only at its first index. */
  lemma OnlyAtIndexOf(allCities: seq<string>, city: string)
    requires NoDuplicates(allCities) && city in allCities
    ensures forall j :: 0 <= j < |allCities| && j != IndexOf(allCities, city) ==> allCities[j] != city
  {
    var k := IndexOf(allCities, city);
    forall j | 0 <= j < |allCities| && j != k ensures allCities[j] != city {
      if j > k { assert allCities[k] != allCities[j]; }
    }
  }

  /** A vector whose tail is the one-hot encoding of a listed city over a
      duplicate-free list has one 1 there, at the city's column, and 0 in
      every other column of the tail. */
  lemma SegmentOneHot(v: seq<real>, allCities: seq<string>, city: string)
    requires NoDuplicates(allCities) && city in allCities
    requires |v| == CityBase + |allCities| && v[CityBase..] == CityEncoding(allCities, city)
    ensures CountOf(v[CityBase..], 1.0) == 1
    ensures v[CityBase + IndexOf(allCities, city)] == 1.0
    ensures forall i :: CityBase <= i < |v| && i != CityBase + IndexOf(allCities, city) ==> v[i] == 0.0
  {
    CityEncodingCount(allCities, city);
    OnlyAtIndexOf(allCities, city);
    var k := IndexOf(allCities, city);
    assert v[CityBase + k] == v[CityBase..][k];
    forall i | CityBase <= i < |v| && i != CityBase + k ensures v[i] == 0.0 {
      assert v[i] == v[CityBase..][i - CityBase];
    }
  }

  /** A validated (country, city) pair over a table with no repeated city
      produces exactly one 1 in the city segment, at that city's column,
      and 0 in every other city column. */
  lemma ValidatedCityOneHot(t: Table, r: Readings, country: string, city: string)
    requires NoDuplicates(AllCities(t)) && Validate(t, country, city) == Accepted
    ensures city in AllCities(t)
    ensures CountOf(Encode(t, r, country, city)[CityBase..], 1.0) == 1
    ensures Encode(t, r, country, city)[CityBase + IndexOf(AllCities(t), city)] == 1.0
    ensures forall i :: CityBase <= i < |Encode(t, r, country, city)| && i != CityBase + IndexOf(AllCities(t), city) ==>
              Encode(t, r, country, city)[i] == 0.0
  {
    AcceptedCityIsColumn(t, country, city);
    var all := AllCities(t);
    var v := Encode(t, r, country, city);
    assert v[CityBase..] == CityEncoding(all, city);
    SegmentOneHot(v, all, city);
  }

  /** For the app's own table: the vector has 19 columns and a validated
      city lights exactly one of the nine city columns. */
  lemma MapEncodingOneHot(r: Readings, country: string, city: string)
    requires Validate(CountryCityMap, country, city) == Accepted
    ensures |Encode(CountryCityMap, r, country, city)| == 19
    ensures CountOf(Encode(CountryCityMap, r, country, city)[CityBase..], 1.0) == 1
  {
    CountryCityMapShape();
    ValidatedCityOneHot(CountryCityMap, r, country, city);
  }

  /** The sample request for Chennai, India passes validation. */
  lemma ChennaiAccepted()
    ensures Validate(CountryCityMap, "India", "Chennai") == Accepted
  {
    ListedCityAccepted(CountryCityMap, 1, "Chennai");
  }

  /** Chennai is the third column of the app's table. */
  lemma ChennaiIsThirdColumn()
    ensures "Chennai" in MapCityColumns && IndexOf(MapCityColumns, "Chennai") == 2
  {
    assert |MapCityColumns[0]| != |"Chennai"| && |MapCityColumns[1]| != |"Chennai"|;
    assert MapCityColumns[2] == "Chennai";
  }

  /** Chennai, India with any readings: 19 columns, country flag 0, and
      exactly one 1 among the city columns, at Chennai's (column 12). */
  lemma ChennaiVector(r: Readings)
    ensures var v := Encode(CountryCityMap, r, "India", "Chennai");
            && |v| == 19
            && v[CountryColumn] == 0.0
            && v[CityBase + 2] == 1.0
            && CountOf(v[CityBase..], 1.0) == 1
  {
    ChennaiAccepted();
    CountryCityMapShape();
    ValidatedCityOneHot(CountryCityMap, r, "India", "Chennai");
    ChennaiIsThirdColumn();
    assert "India" != ReferenceCountry by { assert |"India"| != |ReferenceCountry|; }
  }
}
