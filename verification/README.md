# LightBnB property search: query assembly, in Dafny

LightBnB's data-access layer (`server/database.js`) turns a property search
into one parameterized SQL statement. `getAllProperties(options, limit = 10)`
starts from a fixed `SELECT ... JOIN property_reviews`. It appends one filter
fragment for each search option that is present: city, owner id, minimum
price and maximum price. Then it appends `GROUP BY`, with a `HAVING` clause
when a minimum rating is given, and finally `ORDER BY cost_per_night LIMIT`.
Each value goes into a positional parameter list, and the fragment refers to
it as `$n`, where n is the list's length right after the push. Whether a
filter opens with `WHERE` or `AND` is decided by a counter, `countOptions`.
The owner filter neither reads nor advances that counter.

`addProperty(property)` reads fourteen fields of a property record in a fixed
key order and binds them to the fourteen columns of an `INSERT`. The fields are
bound unchanged: `cost_per_night` is stored as given, whereas the search
compares `cost_per_night` against a price bound multiplied by 100.

The model:

- `js_values.dfy` (`JsValues`): absent properties, JavaScript truthiness,
  `String.prototype.slice`, and the decimal rendering of `${n}`, together
  with its inverse.
- `property_search.dfy` (`PropertySearch`): the options record, the query as
  a sequence of appended fragments (`Clause`), and the exact text of each
  fragment (`ClauseText`, `QueryText`). The builder `Build` follows the
  source step by step, counter included. `Criteria` and `ExpectedKeyword`
  give an independent, declarative description of the same output, and
  `BuildFollowsCriteria` proves that the two agree.
- `property_search_facts.dfy` (`PropertySearchFacts`): placeholder numbering,
  parameter count and order, the city pattern, price bounds in cents, the
  WHERE/AND rule, the clause layout, and the number of WHERE clauses.
- `query_text_facts.dfy` (`QueryTextFacts`): counts the occurrences of the
  string `WHERE` in the rendered query text. There are two exactly when an
  owner id is combined with a city or a price bound.
- `property_search_corrected.dfy` (`PropertySearchCorrected`): the builder
  with that defect repaired, and how it relates to the original.
- `new_property.dfy` (`NewProperty`): the parameter list of `addProperty`.

Presence follows JavaScript `if (options.x)`. An option is `None` when the
property is absent. A present `0` or `""` is falsy, so it is treated as
absent: a price bound of 0 adds no filter.

## Model

| member | source | states |
|---|---|---|
| `JsValues.Slice` | LightBnB_WebApp-master/server/database.js:123 | `slice(start, end)` returns the characters of `s` from `start` up to the end clamped to the length, and returns "" when the end is at or before the start |
| `JsValues.DecimalString` | LightBnB_WebApp-master/server/database.js:124 | `${n}` renders a non-empty string of decimal digits, with no leading zero unless n is 0 |
| `JsValues.DecimalRoundTrip` | LightBnB_WebApp-master/server/database.js:124 | reading the rendered digits back gives n, so `$n` names parameter n |
| `JsValues.DecimalStringInjective` | LightBnB_WebApp-master/server/database.js:124 | distinct parameter positions give distinct placeholders |
| `PropertySearch.CityPattern` | LightBnB_WebApp-master/server/database.js:122-123 | the city parameter starts and ends with `%`, and between them is the city without its first and last character; a city of one or two characters gives `%%` |
| `PropertySearch.GetAllProperties` | LightBnB_WebApp-master/server/database.js:168-177 | the parameter list handed to the query is never empty, and its last entry is the limit |
| `PropertySearch.PriceKeyword` | LightBnB_WebApp-master/server/database.js:137-141 | the test `countOptions > 1` after the increment picks AND exactly when a city or price filter came earlier |
| `PropertySearch.AddCityTracks` | LightBnB_WebApp-master/server/database.js:120-125 | a present city appends one filter, one parameter (the pattern) and one count |
| `PropertySearch.AddOwnerTracks` | LightBnB_WebApp-master/server/database.js:128-131 | a present owner id appends a WHERE filter and its parameter, and leaves the counter alone |
| `PropertySearch.AddMinimumPriceTracks` | LightBnB_WebApp-master/server/database.js:134-142 | a present minimum price appends a `>=` filter on the price in cents, with the keyword the counter picks |
| `PropertySearch.AddMaximumPriceTracks` | LightBnB_WebApp-master/server/database.js:145-153 | a present maximum price appends a `<=` filter on the price in cents, with the keyword the counter picks |
| `PropertySearch.AddFiltersTracks` | LightBnB_WebApp-master/server/database.js:119-153 | after the four filter steps, the fragments and parameters are exactly those of the present filters, in source order, with the keywords of `ExpectedKeyword` |
| `PropertySearch.FinishFollows` | LightBnB_WebApp-master/server/database.js:155-173 | the grouping and limit steps append GROUP BY (with HAVING and the rating parameter when a rating is present) and then `LIMIT` bound to the last parameter |
| `PropertySearch.BuildFollowsCriteria` | LightBnB_WebApp-master/server/database.js:107-173 | the whole output equals the declarative description: SELECT, one filter per present option, each bound to its own parameter, then the grouping, then the limit |
| `PropertySearchFacts.PlaceholdersConsecutive` | LightBnB_WebApp-master/server/database.js:119-173 | the placeholders in text order are `$1`, `$2`, ..., `$k`, where k is the number of parameters |
| `PropertySearchFacts.ParameterCount` | LightBnB_WebApp-master/server/database.js:109-172 | there is one parameter per present option plus one; the last is the limit, and the final `LIMIT` clause refers to it |
| `PropertySearchFacts.CityParameter` | LightBnB_WebApp-master/server/database.js:120-125 | a present city is parameter 1, in `%...%` form, and the first filter is `WHERE city LIKE $1` |
| `PropertySearchFacts.QuotedCityPattern` | LightBnB_WebApp-master/server/database.js:122-123 | for a city wrapped in quotes the pattern is `%` + city + `%` |
| `PropertySearchFacts.PriceParameters` | LightBnB_WebApp-master/server/database.js:134-153 | each price bound is the value times 100, placed after the city and owner parameters; the minimum uses `>=` and the maximum `<=` |
| `PropertySearchFacts.KeywordChoice` | LightBnB_WebApp-master/server/database.js:120-153 | in the output, a filter says AND exactly when it is a price bound that comes after a city or price filter; the owner filter and the first of city/minimum/maximum say WHERE |
| `PropertySearchFacts.ClauseLayout` | LightBnB_WebApp-master/server/database.js:155-173 | the order is SELECT, then filters only, then exactly one GROUP BY, then `ORDER BY ... LIMIT` last; HAVING is present exactly when a minimum rating is, and it is bound to that rating |
| `PropertySearchFacts.FilterCounter` | LightBnB_WebApp-master/server/database.js:121-146 | `countOptions` ends as the number of city and price filters present; the owner filter is not counted |
| `PropertySearchFacts.WhereClauseCount` | LightBnB_WebApp-master/server/database.js:120-153 | the number of WHERE filters is one for the owner id, plus one if any city or price filter is present |
| `QueryTextFacts.ClauseWhereOccurrences` | LightBnB_WebApp-master/server/database.js:113-173 | every fragment text ends in a space; `WHERE` occurs once in a filter that opens with it, and nowhere in any other fragment |
| `QueryTextFacts.QueryWhereOccurrences` | LightBnB_WebApp-master/server/database.js:113-173 | the number of occurrences of `WHERE` in the query text equals the number of WHERE filters |
| `QueryTextFacts.DoubleWhere` | LightBnB_WebApp-master/server/database.js:128-131 | the query text contains `WHERE` at most twice, and exactly twice when an owner id comes with a city or a price bound |
| `QueryTextFacts.DoubleWhereExample` | LightBnB_WebApp-master/server/database.js:120-131 | `{city: "'Vancouver'", owner_id: 1}` gives `WHERE city LIKE $1 WHERE properties.owner_id = $2` |
| `PropertySearchCorrected.CorrectedFilters` | LightBnB_WebApp-master/server/database.js:119-153 | with the repair, the first filter says WHERE, each later one says AND, and every filter is bound to its own parameter |
| `PropertySearchCorrected.CorrectedWhereCount` | LightBnB_WebApp-master/server/database.js:119-153 | the repaired text contains `WHERE` once when any filter is present, and not at all otherwise |
| `PropertySearchCorrected.CorrectedChangesKeywordsOnly` | LightBnB_WebApp-master/server/database.js:107-173 | the repair keeps the parameters and every fragment, and changes only filter keywords |
| `PropertySearchCorrected.ExpectedKeywordsCorrectIff` | LightBnB_WebApp-master/server/database.js:128-153 | the counter already picks the right keywords exactly when the owner filter does not meet a city or price filter |
| `PropertySearchCorrected.CorrectedAgreesIff` | LightBnB_WebApp-master/server/database.js:128-153 | the original and repaired queries are identical exactly when the owner filter does not meet a city or price filter |
| `NewProperty.CollectInput` | LightBnB_WebApp-master/server/database.js:188-192 | the loop builds exactly 14 entries; entry i is the record's field named by key i, and it is absent when the record lacks that key |
| `NewProperty.KeysDistinct` | LightBnB_WebApp-master/server/database.js:189 | no field is read twice |
| `NewProperty.ColumnsMatchKeys` | LightBnB_WebApp-master/server/database.js:189-196 | placeholder `$i+1` is in the INSERT column named by key i, so every column receives the field of the same name |
| `NewProperty.InputAgreesIff` | LightBnB_WebApp-master/server/database.js:188-192 | two records give the same parameter list exactly when they agree on the fourteen fields |

## Left out

- The connection pool and its credentials (`database.js:3-8`) are configuration, not logic.
- The query execution by the database client (`pool.query`) is left out. So are the promise chains (`database.js:177`, `193-199`) and the log-and-swallow `.catch` of `addProperty` (`database.js:200-202`). `getAllProperties` has no `.catch`, so its errors propagate to the caller. The rows a query returns depend on the database, not on this code.
- `getUserWithEmail`, `getUserWithId`, `addUser` and `getAllReservations` (`database.js:18-95`) are left out. Each passes a constant SQL string to the client, and everything they mean happens in the database.
- `console.log` of the query (`database.js:176`) is left out because it is output only.
- `Number(...)` coercion is not modelled. Numeric options are taken to be integers already, so a string option such as `"0"` (truthy in JavaScript) cannot be expressed. Fractional prices and ratings, and the floating-point multiplication by 100, are also out: the model multiplies integers.
- The options are taken as typed: the city is a string and `limit` is an integer. Other JavaScript values are not modelled.
- `JsValues.Slice`: negative arguments are not modelled. They never arise here, because the end `length - 1` is at least 0 for a truthy city.
- `JsValues.Slice`: a Dafny string is a sequence of Unicode scalar values, while JavaScript's `length` and `slice` count UTF-16 code units. The two agree unless the string holds a character outside the Basic Multilingual Plane, which takes two code units in JavaScript and one `char` here.
- `PropertySearch.CityPattern`: inherits that gap. When the city's first or last character lies outside the Basic Multilingual Plane, JavaScript cuts a surrogate pair in half, and the model drops the whole character. For a city wrapped in ASCII quotes the two agree.
- `NewProperty.Lookup`: lookup through the record's prototype chain is not modelled. Field values are of an arbitrary type `V`.
- The query ends in `ORDER BY cost_per_night` with no `ASC`; SQL's default order is ascending.
- Only `WHERE` is counted in the rendered text. The other claims about the text (AND, GROUP BY, HAVING, LIMIT) are proved on the fragment sequence. Each fragment's text is given exactly by `ClauseText`.

## Findings

| source | as written | input that shows it | evidently intended | confidence | as-written member | corrected member |
|---|---|---|---|---|---|---|
| LightBnB_WebApp-master/server/database.js:128-131 | the owner filter always opens with `WHERE`, so it repeats `WHERE` after a city filter; because it does not advance `countOptions`, a price filter after it with no city before also opens with `WHERE` | `{city: "'Vancouver'", owner_id: 1}` gives `WHERE city LIKE $1 WHERE properties.owner_id = $2`, which is not valid SQL | every filter after the first is joined with `AND`, so the query has exactly one `WHERE` | high (not executed) | `QueryTextFacts.DoubleWhereExample` | `PropertySearchCorrected.CorrectedWhereCount` |
