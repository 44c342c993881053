# Air-quality prediction app: the deterministic core

The app is a two-page form. On the input page the user enters six pollutant
readings (PM2.5, PM10, NO2, SO2, CO, O3), three weather readings
(temperature, humidity, wind speed), a country and a city. Pressing
"Predict" does four things in order:

1. It checks that the city is listed under the country in the fixed
   country -> cities table.
2. It builds a flat numeric feature vector.
3. It asks a pre-trained regression model for the AQI.
4. On success, it stores the AQI and switches to the result page.

The result page classifies the AQI into one of three bands (Good, Moderate,
High), each with a colour, a status line and advice. "Back" returns to the
input page.

This project models that core in Dafny:

- `Geography` (geography.dfy) holds the ordered table as a sequence of
  entries, which is how the dictionary keeps its insertion order. It has
  dictionary lookup and the `sum(values, [])` flattening. Flattening is
  written as a left fold, as Python's `sum` computes it, and is proved equal
  to a plain right-fold concatenation. It also has the city/country check.
  The table type admits only tables with distinct keys, as a dictionary
  has. For the app's own table it proves that the nine columns are Los Angeles, New York, Chennai, Delhi, Mumbai, Dubai,
  London, Sydney, Shanghai, with no duplicates.
- `Encoder` (encoder.dfy) builds the feature vector. It has the nine
  readings, then the USA indicator, then one one-hot column per flattened
  city.
- `Severity` (severity.dfy) covers the three AQI bands and their banners.
  It proves them against an independent interval description of the bands.
- `Session` (session.dfy) covers the session state, where `page` and `aqi`
  may each be absent. The pure step functions `Start`, `PredictStep` and
  `BackStep` specify the transitions. Lemmas over runs of interactions sit
  beside them. The `SessionState` class has `page`/`aqi` fields, and its
  `InitPage`, `Predict` and `Back` methods update them in place; each
  method's postcondition ties the new state to a step function.
- `Wrappers` (wrappers.dfy) holds the `Option` datatype.

The regression model is a parameter `model: seq<real> -> ModelReply`: it
either returns a list of outputs or raises. Readings, the AQI and the vector
are `real`s.

Three behaviours of the code are worth spelling out:

- **Back keeps the AQI.** Back only resets the page to the input page
  (app.py:222-223), so the last AQI stays stored in the session.
- **An unknown country is not handled.** The lookup `country_city_map[country]`
  at app.py:159 is outside the `try`. For a country that is not a key, it
  raises a `KeyError` that nothing catches. The model reports it as the
  outcome `UnknownCountry` and leaves the state alone. In the app itself this
  case cannot arise: the city selectbox at app.py:149 indexes the table with
  the same country on every run of the input page, and so would raise first,
  and the country selectbox at app.py:148 offers only the table's keys.
  `UnknownCountry` covers the case only because the widgets are not
  modelled.
- **An empty prediction fails.** `prediction[0]` is inside the `try`. An
  empty model output therefore raises there, and the app reports it like any
  other prediction failure (`NoOutput`).

## Model

| member | source | states |
|---|---|---|
| `Geography.Lookup` | app.py:159 | the lookup fails exactly when no entry has the country as key; otherwise it returns the cities of an entry with that key |
| `Geography.LookupAt` | app.py:21-28 | with distinct keys, looking up the i-th country yields the i-th city list |
| `Geography.Validate` | app.py:159-160 | a pair is accepted exactly when some entry has the country as key and lists the city; it is an unknown country exactly when no entry has that key; any other rejection is an invalid city naming the city and the country |
| `Geography.ListedCityAccepted` | app.py:159-160 | every city listed under a country passes the check for that country |
| `Geography.UnlistedCityRejected` | app.py:159-160 | a city missing from a country's list is rejected with an invalid-city error naming the city and the country |
| `Geography.AcceptedCityIsColumn` | app.py:159-167 | an accepted pair has its country as a key, lists the city under it, and the city is one of the flattened one-hot columns |
| `Geography.SumValuesIsFlatten` | app.py:166 | the left-fold `sum(values, [])` equals the concatenation of the per-country lists in declaration order |
| `Geography.AllCities` | app.py:166 | the one-hot column list is that concatenation, and it is as long as the sum of the per-country list lengths |
| `Geography.AllCitiesMembership` | app.py:166 | a city is a column exactly when some country lists it |
| `Geography.AllCitiesAt` | app.py:166 | the j-th city of the i-th country sits at column Offset(i) + j, so declaration order is kept |
| `Geography.CityUnderOneCountry` | app.py:21-28 | when the flattened list has no duplicates, each city is listed under exactly one country |
| `Geography.MapCityColumnsDistinct` | app.py:21-28 | the app's nine cities are pairwise different |
| `Geography.CountryCityMapColumns` | app.py:166 | the app's table flattens to Los Angeles, New York, Chennai, Delhi, Mumbai, Dubai, London, Sydney, Shanghai: nine columns |
| `Geography.CountryCityMapShape` | app.py:21-28 | the app's table flattens to its nine cities in declaration order, with none repeated |
| `Encoder.ReadingsRow` | app.py:170 | the readings row has nine entries: pm25, pm10, no2, so2, co, o3, temp, humidity, windspeed, in that order and unchanged |
| `Encoder.CountryUsa` | app.py:163 | the flag is 1 exactly for "USA" and 0 for every other country |
| `Encoder.CityEncoding` | app.py:167 | the encoding has one entry per column; each entry is 1 exactly where the column is the chosen city and 0 exactly where it is not |
| `Encoder.Encode` | app.py:163-170 | the vector has length 10 + total cities; columns 0-8 are pm25, pm10, no2, so2, co, o3, temp, humidity, windspeed unchanged; column 9 is 1 iff the country is "USA" and 0 otherwise; city column i is 1 iff flattened city i is the chosen city and 0 otherwise |
| `Encoder.CityEncodingCount` | app.py:166-167 | over distinct columns, a listed city gives exactly one 1 and all other entries 0; an unlisted city gives no 1 |
| `Encoder.OnlyAtIndexOf` | app.py:166-167 | in a list without repeats, a city occurs at no column other than its first index |
| `Encoder.SegmentOneHot` | app.py:167-170 | a city segment encoding a listed city over distinct columns holds one 1, at the city's index, and 0 in every other city column |
| `Encoder.ValidatedCityOneHot` | app.py:159-170 | a validated city over a duplicate-free table gives exactly one 1 in the city segment, at the city's flattened index, and 0 in every other city column |
| `Encoder.MapEncodingOneHot` | app.py:163-170 | for the app's table, the vector has 19 columns and a validated city lights exactly one city column |
| `Encoder.ChennaiAccepted` | app.py:159-160 | India/Chennai passes the check |
| `Encoder.ChennaiIsThirdColumn` | app.py:166 | Chennai's flattened index in the app's table is 2 |
| `Encoder.ChennaiVector` | app.py:163-170 | for any readings, India/Chennai gives a 19-column vector with country flag 0 and exactly one 1 among the city columns, at Chennai's column 12 |
| `Severity.Classify` | app.py:189-200 | the chosen band's interval (-inf, 50], (50, 100] or (100, +inf) contains the AQI |
| `Severity.BannerOf` | app.py:189-206 | every banner's colour is a `#` followed by six hex digits, usable as the page's CSS background, and its status and advice are never empty |
| `Severity.Decide` | app.py:189-200 | the banner shown is the banner of the band whose interval holds the AQI; it is the Good banner exactly when the AQI is at most 50 and the High banner exactly when it is above 100 |
| `Severity.BandsPartition` | app.py:189-200 | a band's interval holds the AQI iff it is the band chosen, so the bands cover every value and do not overlap |
| `Severity.ClassifyMonotone` | app.py:189-200 | a higher AQI never yields a cleaner band |
| `Severity.Boundaries` | app.py:189-193 | 50 is Good, 50.01 is Moderate, 100 is Moderate, 100.01 is High |
| `Severity.BannersDistinct` | app.py:189-200 | different bands differ in colour, status line and message |
| `Session.Start` | app.py:17-18 | the page is set to the input page only when it is absent; a present page and the stored AQI are untouched |
| `Session.CallModel` | app.py:173-179 | the guarded call succeeds iff the model returns a non-empty output, and then yields its first element; a raise is reported as a failure carrying its reason, an empty output as a no-output failure |
| `Session.PredictStep` | app.py:156-179 | the session moves iff it is on the input page, validation passes and the model yields an output; it then stores that output as the AQI and shows the result page; otherwise the state is unchanged; the press is ignored iff the page is not the input page; a rejection happens iff the check fails and carries the check's verdict; a prediction failure happens iff the check passes and the guarded call fails, and carries that call's failure |
| `Session.BackStep` | app.py:222-223 | from the result page, back goes to the input page; from any other page nothing changes; the AQI is kept either way |
| `Session.ResultScreen` | app.py:184-200 | a result screen is shown exactly when the page is the result page and an AQI is stored; it shows that AQI with the banner of the band whose interval holds it |
| `Session.Step` | app.py:17-224 | after one script run a page is stored; a consistent state stays consistent; only a predict action changes the AQI, and only when pressed on the input page, validated and answered, storing that answer; Back never leaves the result page showing; reaching the result page takes such a predict, and such a predict pressed on the input page always moves to the result page holding its answer; Back on the result page always returns to the input page keeping the AQI; no other interaction changes the state the prologue left |
| `Session.Run` | app.py:17-224 | no interactions leave the state as it was; after any interaction a page is stored; consistency is kept and a stored AQI is never dropped |
| `Session.AqiComesFromSuccessfulPredict` | app.py:156-186 | from an empty session, any stored AQI is the model's output for an earlier predict that was pressed on the input page, validated and got an answer, and the result page is never shown without one |
| `Session.BackOnInputIsNoop` | app.py:222-223 | back on the input page has no effect |
| `Session.RepredictAfterBack` | app.py:159-176 | after a successful predict, going back and predicting again with the same inputs and model gives the same state and outcome |
| `Session.GoodScreen` | app.py:184-192 | on the result page, an AQI of at most 50 is shown with the Good banner |
| `Session.ChennaiScenario` | app.py:159-200 | India/Chennai, with a model that answers 42.0 for the encoded vector, moves from the input page to the result page with AQI 42.0, shown with the Good banner |
| `Session.UsaDubaiRejected` | app.py:159-160 | USA/Dubai is rejected as an invalid city and the session state is unchanged |
| `Session.SessionState.constructor` | app.py:17-18 | a new session holds neither a page nor an AQI |
| `Session.SessionState.InitPage` | app.py:17-18 | updates the fields exactly as `Start` prescribes |
| `Session.SessionState.Predict` | app.py:156-179 | updates the fields and returns the outcome exactly as `PredictStep` prescribes; on every outcome but a move, page and AQI are unchanged |
| `Session.SessionState.Back` | app.py:222-223 | updates the fields exactly as `BackStep` prescribes |
| `Session.ChennaiSession` | app.py:156-223 | a new session object is driven through open, predict India/Chennai (the model answers 42.0) and back; it shows the Good banner for 42.0, then returns to the input page with 42.0 still stored |

## Left out

- Rendering is not modelled: page configuration, columns, markdown/HTML output, the CSS and the result page's background styling (app.py:6, 31-119, 126-152, 203-217).
- The widgets that offer the table's keys and the chosen country's cities (app.py:148-149) are not modelled. The country and city are plain inputs, so the check at app.py:159 is modelled for any pair.
- Loading the pickled model from disk and caching it (app.py:9-14) are left out. The model is a function parameter that either returns outputs or raises.
- The number widgets' minimum, maximum and step (app.py:133-145) are not modelled. Readings are unconstrained reals, and wind speed is an unconstrained integer.
- IEEE floating point, the NumPy array and the two-decimal display of the AQI (app.py:170, 214) are not modelled. Readings, the AQI and the vector are exact reals.
- `st.rerun()` (app.py:177, 224) is not modelled. Each interaction is one `Step`: the prologue first, then at most one button press.
- The text of the error messages (app.py:160, 179) is not modelled. The model keeps their content instead: the offending city and country, and the reason the model raised.
- A Python dict literal with a repeated key keeps the last value. The `Table` type admits only distinct keys, which the app's literal has, so that case is not modelled.
- `Session.ResultScreen`: on the result page with no AQI stored, the source raises an `AttributeError` at app.py:186, while the model returns None. `AqiComesFromSuccessfulPredict` shows that this state cannot be reached from a new session.
