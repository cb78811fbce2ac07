# IN_hotels booking and search core, in Dafny

IN_hotels is an Express back end for a hotel-booking site. This project models
the decision logic in its `app.js`:

- **Booking.** `getBookingMsg` turns a `/book` request into exactly one message.
  The checks run in a fixed order and the first failure wins: login, required
  fields, date shape and order, user, hotel, availability. The `/book` handler
  inserts a row only when that message is `'success'`.
- **Availability.** `hotelAvailability` runs one SQL query over `bookings`. The
  model takes its condition exactly as written.
- **Query builder.** `queryParam` and `newQueryCondition` grow a list of clauses
  and a parallel list of bound values, then assemble the query text.
- **Search gate.** The `/hotels` handler trims its parameters with `trimIfExist`.
  It refuses non-integer bounds with `isValidIntegerString`, and refuses
  `min > max`. It compares `min` and `max` as strings, not as numbers.

Modules:

- `Wrappers`: `Option`.
- `JsStrings`: JavaScript truthiness, `String.prototype.trim` with the
  ECMAScript whitespace set, and the `<` order JavaScript uses on strings.
- `JsNumbers`: `parseInt(s, 10)`, `toString()` on integers, and
  `isValidIntegerString`.
- `Dates`:
  - the `^\d{4}-\d{2}-\d{2}$` shape test;
  - `Date.parse` acceptance, taken as a parameter;
  - the order of `new Date(...)` values;
  - SQLite `DATETIME(...)` text.
- `Schema`: the booking row, the store failures, and the result of one store call.
- `Availability`: the availability query.
- `Booking`:
  - `Decide`: the decision chain as one flat reference function;
  - `Store`: a class holding the user ids, the hotel ids, the bookings and the
    next auto-increment id;
  - `getBookingMsg` and the `/book` handler, as methods of `Store`.
- `HotelSearch`:
  - `QueryParts`: a class holding the two arrays `queryParam` pushes into;
  - `queryParam`, as a method;
  - the `min`/`max` gate, as a function;
  - the `/hotels` handler up to running the query.

Each store call of `/book` that can throw has a flag in `Faults`. In `/hotels`,
a failure of the database is the `queryFails` parameter of `HotelSearch.Hotels`.
The `Faults` flags are:

- `select * from users`;
- `select * from hotels`;
- the availability query;
- the insert.

When a flag is set, the call throws, and the model follows the `catch` branch
the source takes.

The model differs from the intended behaviour in two places, and in both it
follows the code:

- **Availability.** The source misses an existing booking that lies strictly
  inside the new stay. For a stay 2024-01-05..2024-01-20 against a booking
  2024-01-10..2024-01-15 of the same hotel, the stay is reported available
  (`Availability.EnclosingStayAvailable`). `Booking.EnclosingStayAccepted`
  shows that such a booking is then accepted.
- **`min`/`max`.** They are compared as strings:
  - `min=9&max=10` is refused;
  - `min=10&max=9` gets through.

## Model

| member | source | states |
|---|---|---|
| JsStrings.TrimStart | app.js:314 | the result is a suffix of the input; every dropped character is whitespace; the result does not start with whitespace |
| JsStrings.TrimEnd | app.js:314 | the result is a prefix of the input; every dropped character is whitespace; the result does not end with whitespace |
| JsStrings.IsWhitespace | app.js:314 | the characters `trim()` removes and `parseInt` skips: ECMAScript WhiteSpace (tab, vertical tab, form feed, space, no-break space, ZWNBSP, the Zs spaces) and LineTerminator |
| JsStrings.Truthy | app.js:313-314 | a request value is truthy when it is present and not the empty string |
| JsStrings.Trim | app.js:314 | `String.prototype.trim`: the leading whitespace is dropped, then the trailing whitespace |
| JsStrings.TrimIfExist | app.js:313-315 | an absent value stays absent; a falsy value (absent or `''`) is passed through unchanged; a truthy value becomes an infix of itself from which only whitespace was dropped, and whose first and last characters are not whitespace |
| JsStrings.TrimShape | app.js:313-315 | a trimmed string is an infix of the original, every character dropped on either side is whitespace, and its first and last characters are not whitespace |
| JsStrings.TrimBounds | app.js:314 | the positions in the original where the trimmed text starts and ends; everything outside them is whitespace |
| JsStrings.TrimIdempotent | app.js:313-315 | trimming twice gives the same as trimming once |
| JsStrings.NoEdgeWhitespaceTrimFixed | app.js:313-315 | a string with no whitespace at either end is left unchanged by trim |
| JsStrings.TrimIfExistTruthy | app.js:73-76 | after trimming, a parameter is truthy exactly when it held a non-whitespace character |
| JsStrings.StrLt | app.js:78 | JavaScript `<` on two strings: character by character, a proper prefix coming first |
| JsStrings.StrLe | app.js:78 | JavaScript `<=` on two strings: equal, or `<` |
| JsStrings.StrLtIrreflexive | app.js:78 | no string is `<` itself |
| JsStrings.StrLtTransitive | app.js:78 | string `<` is transitive |
| JsStrings.StrLtTotal | app.js:78 | of two different strings, one is `<` the other |
| JsStrings.StrLtAsymmetric | app.js:78 | `a < b` excludes `b < a` and `a == b` |
| JsStrings.StrLtConcat | app.js:78 | with equal-length heads, strings compare head first, then tail |
| JsNumbers.NatToString | app.js:325 | the decimal numeral of a natural number is a non-empty string of digits |
| JsNumbers.LeadingDigits | app.js:324 | the longest prefix made of digits: a prefix of the input, all digits, followed by a non-digit or by the end of the input |
| JsNumbers.ParseInt | app.js:324 | `parseInt` is NaN exactly when no digit follows the leading whitespace and the optional sign |
| JsNumbers.ParseIntValue | app.js:324 | for every input made of whitespace, an optional `+` or `-`, a run of digits and a rest not starting with a digit, `parseInt` gives the value of the digits, negated after `-` |
| JsNumbers.ParseIntExample | app.js:324 | `parseInt(' -7px')` is `-7` |
| JsNumbers.SkipWhitespace | app.js:324 | leading whitespace is skipped up to the first other character |
| JsNumbers.LeadingDigitsRun | app.js:324 | the digit run of a text is the digits before its first non-digit |
| JsNumbers.Unsigned | app.js:324 | `parseInt`'s optional sign: one leading `+` or `-` is stepped over |
| JsNumbers.IntToString | app.js:325 | `toString()` on an integer: a `-` for a negative number, then the decimal numeral of its magnitude |
| JsNumbers.IsValidIntegerString | app.js:323-326 | `isValidIntegerString`: the value is falsy, or it parses and printing the parsed number gives the value back |
| JsNumbers.ValidIntegerStringIsCanonical | app.js:323-326 | `isValidIntegerString` holds exactly for falsy values and canonical integers: `0`, or a non-zero digit then digits, optionally after `-`, with no `+`, leading zero, space or fraction |
| JsNumbers.IntToStringCanonical | app.js:325 | every printed integer is canonical |
| JsNumbers.NatToStringNoLeadingZero | app.js:325 | a printed natural number is `0` only for zero, and otherwise does not start with `0` |
| JsNumbers.CanonicalRoundTrip | app.js:324-325 | a canonical integer string is parsed, and printing the result gives back the same string |
| JsNumbers.NonNegativeRoundTrip | app.js:324-325 | an unsigned canonical string parses to its digit value and prints back unchanged |
| JsNumbers.NegativeRoundTrip | app.js:324-325 | a `-` followed by canonical digits parses to the negated value and prints back unchanged |
| JsNumbers.AllDigitsLeading | app.js:324 | `parseInt` reads the whole of a string made only of digits |
| JsNumbers.LeadingNonZeroPositive | app.js:324 | digits that start with a non-zero digit denote a positive number |
| JsNumbers.DigitsRoundTrip | app.js:324-325 | printing the value of a digit string without leading zeros gives the string back |
| Dates.DateShaped | app.js:236 | the strings the regular expression `^\d{4}-\d{2}-\d{2}$` matches: ten characters, digits except for `-` at positions 4 and 7 |
| Dates.IsValidDate | app.js:235-238 | `isValidDate`: `Date.parse` accepts the string and it has the `YYYY-MM-DD` shape |
| Dates.ValidInAndOut | app.js:219-228 | `validInAndOut`: both dates are valid and the check-in date comes strictly before the check-out date |
| Dates.DateKey | app.js:224-227 | the order of `new Date(checkin)` and `new Date(checkout)`: the number `year * 10000 + month * 100 + day`, which orders dates by year, then month, then day |
| Dates.DateKeyByDigits | app.js:225-227 | the date key of a shaped date, digit by digit |
| Dates.ValidInAndOutIsStringOrder | app.js:219-238 | `validInAndOut` holds exactly when both dates are valid and the check-in string is `<` the check-out string |
| Dates.RejectedDates | app.js:219-238 | whatever `Date.parse` accepts: a date is never strictly before itself, and `01-01-2024`, `2024-1-01` and `2024-01-01 ` are invalid |
| Dates.SqlDateTime | app.js:301-303 | in the model, `DATETIME` is not NULL exactly for shaped dates (SQLite reads more texts; see Left out) |
| Dates.SqlLt | app.js:302-303 | SQL `<` on two `DATETIME` texts; a comparison with NULL is not true |
| Dates.SqlLe | app.js:302-303 | SQL `<=` on two `DATETIME` texts; a comparison with NULL is not true |
| Dates.SqlDateOrder | app.js:301-303 | on shaped dates, comparing `DATETIME` texts with `<` and `<=` is comparing the calendar dates |
| Dates.DateOrderIsStringOrder | app.js:224-227 | on shaped dates, string order is date order and string equality is date equality |
| Dates.DigitsOrder | app.js:225-227 | equal-length digit strings compare as the numbers they denote |
| Availability.ConflictsAsWritten | app.js:301-303 | the query's WHERE clause for one row: the same `hid`, and `DATETIME(e.checkin) <= DATETIME(checkin) < DATETIME(e.checkout)` or `DATETIME(e.checkin) < DATETIME(checkout) <= DATETIME(e.checkout)` |
| Availability.Booked | app.js:300-304 | the rows the query returns are the stored bookings that meet its condition, and every such booking is returned |
| Availability.Available | app.js:305 | no stored row meets the WHERE clause, which is when the query returns no row |
| Availability.HotelAvailability | app.js:300-306 | a failing query is passed on as an error; otherwise the result is true exactly when no stored booking meets the condition as written |
| Availability.ForHotel | app.js:301 | the bookings of one hotel are exactly the stored bookings with that `hid` |
| Availability.OtherHotelsNeverMatter | app.js:301 | two stores with the same bookings for a hotel give the same availability for it |
| Availability.EmptyStoreAvailable | app.js:304-305 | with no bookings, every stay is available |
| Availability.MalformedRowNeverConflicts | app.js:301-303 | in the model, a stored row whose dates are not `YYYY-MM-DD` never blocks a stay, because the model's `DATETIME` is NULL for it |
| Availability.ConflictByDate | app.js:301-303 | on shaped dates, the condition is `e.checkin <= checkin < e.checkout` or `e.checkin < checkout <= e.checkout` for a booking `e` of the same hotel |
| Availability.ConflictIsOverlapUnlessContained | app.js:301-303 | for check-in before check-out, a booking is reported exactly when it overlaps the stay and does not lie strictly inside it |
| Availability.SameDayTurnover | app.js:301-303 | for a stay whose check-in precedes its check-out, with `YYYY-MM-DD` dates, starting on a booking's check-out or ending on its check-in is not blocked by that booking |
| Availability.SameStayConflicts | app.js:301-303 | a well-formed booking (`YYYY-MM-DD` dates, check-in before check-out) blocks its own stay |
| Availability.OverlapRefused | app.js:300-305 | 2024-01-12..2024-01-20 is refused against a booking 2024-01-10..2024-01-15 of the hotel |
| Availability.TurnoverAfterAvailable | app.js:300-305 | 2024-01-15..2024-01-20 is available against that booking |
| Availability.TurnoverBeforeAvailable | app.js:300-305 | 2024-01-05..2024-01-10 is available against that booking |
| Availability.EnclosingStayAvailable | app.js:300-305 | 2024-01-05..2024-01-20, which encloses that booking, is reported available |
| Booking.Message | app.js:186-205 | every message is non-empty; the message is `'success'` exactly for a success and `'server error'` exactly for a store error |
| Booking.MessagesDistinct | app.js:127-137 | different outcomes give different messages, so the handler's string tests tell them apart |
| Booking.FieldsPresent | app.js:182 | `hid && checkin && checkout`: the three body fields are all truthy |
| Booking.UserIDExist | app.js:270-275 | a failing query is an error; otherwise the result is true exactly when the user id is stored |
| Booking.GetHotelByID | app.js:284-289 | a failing query is an error; otherwise the rows are empty exactly when the hotel id is not stored, and every row has that id |
| Booking.UserHotelInvalidMsg | app.js:249-262 | an error of either lookup is passed on, even when the user is missing; otherwise the message is empty exactly when both ids exist, is `'user is not found'` for a missing user, and is `'hotel is not found'` for a missing hotel of a known user |
| Booking.Decide | app.js:180-209 | the outcome of a request as one flat chain of checks: login, fields, dates, a failing user or hotel lookup, user, hotel, a failing availability query, availability |
| Booking.SuccessIff | app.js:180-209 | the outcome is success exactly when every field is present, the dates are valid, both ids exist, no lookup fails and the stay is available |
| Booking.ServerErrorNeedsFault | app.js:184-198 | with no store failure, the message is never `'server error'` |
| Booking.RequestChecksIgnoreStore | app.js:182-205 | the login, fields and dates outcomes do not depend on the store's contents or failures |
| Booking.RepeatBookingRefused | app.js:126-134 | after a successful booking is stored, the same request is refused as unavailable |
| Booking.EnclosingStayAccepted | app.js:180-209 | a request whose stay strictly encloses the only booking of the hotel succeeds |
| Booking.BookReply | app.js:125-141 | status 200 exactly for a success whose insert works; 500 exactly for a store error or a failed insert; 400 with the message otherwise; the 200 body reports the id |
| Booking.Store.constructor | app.js:397-403 | the store opened by `getDBConnection` holds the given users, hotels, bookings and next id, with increasing ids |
| Booking.Store.GetBookingMsg | app.js:180-209 | the message is the decision chain's message: no uid gives the login message; a missing field gives `'Missing required parameters'`; then invalid dates, a lookup failure, a missing user, a missing hotel, a bookings failure, and the availability result, in that order |
| Booking.Store.Insert | app.js:131-133 | a failing insert changes nothing; otherwise the row is appended under the next id, that id is returned and the counter grows by one |
| Booking.Store.Book | app.js:119-142 | the reply is the reply for the decision; one row with the request's values and a fresh id is appended exactly on success with a working insert; otherwise the bookings and the counter are unchanged; ids stay increasing |
| HotelSearch.QueryParts.constructor | app.js:342-343 | both arrays start empty |
| HotelSearch.QueryParts.NewQueryCondition | app.js:376-389 | for a truthy value, the clause and the value are pushed, the value wrapped in `%` for the name search; for a falsy value, nothing changes |
| HotelSearch.ConditionOf | app.js:345-348 | the clause of each filter: `hotelName like ?`, `lower(country) = lower(?)`, `price_per_night >= ?` and `price_per_night <= ?` |
| HotelSearch.ValueOf | app.js:382-384 | the value bound to a filter's placeholder: the name search wrapped in `%`, any other parameter as it is |
| HotelSearch.FilterIf | app.js:345-348 | a parameter adds one filter when truthy and none otherwise |
| HotelSearch.Filters | app.js:339 | there are no filters exactly when no parameter is truthy |
| HotelSearch.Conditions | app.js:345-348 | one clause per filter, depending on its kind only |
| HotelSearch.Values | app.js:382-387 | one bound value per filter, in the same order |
| HotelSearch.PushCondition | app.js:385-386 | one `newQueryCondition` call extends the clauses by what one more filter adds |
| HotelSearch.PushValue | app.js:382-387 | one `newQueryCondition` call extends the values by what one more filter adds |
| HotelSearch.ConditionsPushed | app.js:345-348 | the four calls push the clauses of the search's filters, in order |
| HotelSearch.ValuesPushed | app.js:345-348 | the four calls push the values of the search's filters, in order |
| HotelSearch.Join | app.js:351 | `Array.prototype.join`: the parts with the separator between each two |
| HotelSearch.QueryOf | app.js:339-356 | the unfiltered query for no filters; otherwise the filtered prefix, the clauses joined with `' and '`, and `' order by hid'` |
| HotelSearch.QueryText | app.js:339-356 | the query is the head chosen by `filters`, the clauses joined with `' and '`, and `' order by hid'` when filtered |
| HotelSearch.QueryParam | app.js:338-364 | the query text and the values are those of the search's filters |
| HotelSearch.UnfilteredSearch | app.js:338-356 | with no truthy parameter, the query is `select * from hotels order by hotelName, country` and nothing is bound |
| HotelSearch.SearchByNameOnly | app.js:345-356 | a name search alone gives the name clause only, with `%name%` bound |
| HotelSearch.AllFilters | app.js:338-356 | all four parameters give the four clauses in the order name, country, min, max, and the values in the same order |
| HotelSearch.QueryDependsOnlyOnPresence | app.js:338-356 | the query text depends only on which parameters are truthy, never on their contents |
| HotelSearch.PlaceholdersMatchValues | app.js:338-364 | the query has exactly as many `?` placeholders as there are bound values |
| HotelSearch.ConditionPlaceholders | app.js:345-348 | every clause has exactly one `?` |
| HotelSearch.UnfilteredQueryPlaceholders | app.js:340-341 | the unfiltered query has no `?` |
| HotelSearch.PlaceholdersJoin | app.js:351 | joining clauses of one `?` each with a separator without `?` gives one `?` per clause |
| HotelSearch.PlaceholdersAppend | app.js:351-355 | the `?` count of a concatenation is the sum of the counts |
| HotelSearch.Gate | app.js:77-78 | bad integers exactly when a truthy bound is not canonical; `min > max` only when both are truthy and `max < min` as strings; proceeding with both truthy means `min <= max` as strings |
| HotelSearch.GateOrder | app.js:78 | with two truthy integer bounds, the verdict follows their string order |
| HotelSearch.GateLoneBound | app.js:78 | with at most one truthy bound, the request proceeds exactly when the bounds are integers |
| HotelSearch.GateComparesStrings | app.js:77-78 | `min=9&max=10` is refused as `min > max`, and `min=10&max=9` proceeds |
| HotelSearch.GateRefusesNonCanonical | app.js:323-326 | `1.5` and `007` are refused as bad integers |
| HotelSearch.Hotels | app.js:72-97 | bad integers give 400 with the integers text; `min > max` gives 400 with the order text; otherwise a store failure gives 500, and a working store runs the query and values of the trimmed parameters |
| HotelSearch.PriceValuesAreIntegers | app.js:77-81 | whenever the query runs, every truthy price bound is a canonical integer |

## Left out

- Express routing, middleware, cookie parsing, `multer`, static files and
  `app.listen`. These are framework plumbing.
- The `/places` proxy to the Google Places API. It is a network client.
- The `/login`, `/reservations` and `/hotels/:hid` routes. Each checks at most
  that its inputs are present and runs one or two SQL statements, with no
  decision logic of its own. `/login` checks name and password, then runs one
  query. `/reservations` checks the cookie, then runs `userIDExist` and the
  join. `/hotels/:hid` runs `getHotelByID` with no check. `userIDExist` and
  `getHotelByID` are modelled.
- `getDBConnection`, `db.close()` and their failures, and async/await ordering.
  The database is the `Store` object. Each failure that decides a `/book` reply
  is a flag in `Faults`; a `/hotels` failure is the `queryFails` parameter of
  `HotelSearch.Hotels`.
- The check-then-insert race between concurrent `/book` requests. Only single
  requests are modelled.
- The `/hotels` query is built, not run. SQL `LIKE`, `lower()` and the row order
  are not modelled.
- `Dates.IsValidDate`: `Date.parse` is a parameter, because how strictly it
  rejects impossible dates such as `2024-02-30` depends on the engine.
- `Dates.DateKey`: the order of `new Date(...)` is taken to be `(year, month,
  day)` order. This assumes `Date.parse` accepts real calendar dates only.
  An engine that accepts any day from 1 to 31 and rolls it over would read
  `2024-02-30` as 1 March. With a `parses` parameter that accepts such a
  string, the model's `ValidInAndOut("2024-02-30", "2024-03-01", parses)`
  holds. On that engine both dates are 1 March, `start < end` is false, and
  the source replies `'The dates are invalid'`. For impossible dates like
  this, the model may accept a request that the source refuses.
- `Dates.SqlDateTime`: SQLite's `DATETIME` is modelled as the text
  `YYYY-MM-DD 00:00:00` for a `YYYY-MM-DD` text and NULL for every other text.
  SQLite also reads other time values: a date with a time part
  (`2024-01-10 12:00`), a `T` separator, a Julian day number such as
  `2460320.5`, and `now`. In the model these count as NULL. SQLite's NULL for
  an out-of-range month or day, and its normalisation of days past the end of
  a month, are not modelled either. `/book` stores and binds only
  `YYYY-MM-DD` dates, so this matters only in two cases. One is rows seeded
  outside `/book`. The other is an engine whose `Date.parse` accepts impossible
  dates (see `Dates.DateKey`). There, the model can refuse a stay that the
  source accepts.
  - Take a stored booking 2024-02-25..2024-03-01 and a requested stay
    2024-02-30..2024-03-03 of the same hotel.
  - SQLite reads `2024-02-30` as `2024-03-01 00:00:00`, so neither disjunct
    of the query holds. The source books the stay.
  - The model compares `2024-02-30 00:00:00` as text. Its first disjunct
    holds, so the model replies that the hotel is booked.
- `Availability.MalformedRowNeverConflicts`: this holds for the model's
  `DATETIME` only. In SQLite a stored row such as `2024-01-10 00:00:00` is
  not NULL and can block a stay.
- `JsNumbers.IsValidIntegerString`: integers are unbounded. Above 2^53,
  `parseInt` and `toString` work on floating-point values and can disagree;
  that is not modelled.
- `JsStrings.StrLt`: strings are compared by code point. JavaScript compares
  UTF-16 code units, which differ only outside the Basic Multilingual Plane.
- Ids reach the store as the strings the request carries and are matched
  exactly. SQLite's type affinity (`'7'` matching the integer `7`) is not
  modelled. Nor are request values that are not strings, such as arrays or
  JSON numbers.
- `Booking.Store.Book`: the reply carries the id the model hands out (the
  counter). SQLite's `lastID` choice of rowid is not modelled.
