/**
 * `hotelAvailability`: a stay is available when the query over `bookings`
 * returns no row. The query's condition is taken exactly as written: an
 * existing booking `e` is reported when
 *   e.checkin <= checkin < e.checkout   or   e.checkin < checkout <= e.checkout,
 * every date compared as SQLite `DATETIME` text.
 */
module Availability {
  import opened Wrappers
  import opened JsStrings
  import opened Dates
  import opened Schema

  /** The query's WHERE clause for one stored row. */
  predicate ConflictsAsWritten(e: Booking, hid: string, checkin: string, checkout: string) {
    && e.hid == hid
    && (|| (SqlLe(SqlDateTime(e.checkin), SqlDateTime(checkin)) && SqlLt(SqlDateTime(checkin), SqlDateTime(e.checkout)))
        || (SqlLt(SqlDateTime(e.checkin), SqlDateTime(checkout)) && SqlLe(SqlDateTime(checkout), SqlDateTime(e.checkout))))
  }

  /** The rows the availability query returns, in store order. */
  function Booked(bookings: seq<Booking>, hid: string, checkin: string, checkout: string): (rows: seq<Booking>)
    ensures |rows| <= |bookings|
    ensures forall b :: b in rows ==> b in bookings && ConflictsAsWritten(b, hid, checkin, checkout)
    ensures forall i :: 0 <= i < |bookings| && ConflictsAsWritten(bookings[i], hid, checkin, checkout) ==> bookings[i] in rows
  {
    if |bookings| == 0 then []
    else
      var rest := Booked(bookings[1..], hid, checkin, checkout);
      if ConflictsAsWritten(bookings[0], hid, checkin, checkout) then [bookings[0]] + rest else rest
  }

  /** No stored booking meets the query's condition. */
  predicate Available(bookings: seq<Booking>, hid: string, checkin: string, checkout: string) {
    forall i :: 0 <= i < |bookings| ==> !ConflictsAsWritten(bookings[i], hid, checkin, checkout)
  }

  /** `hotelAvailability`: true when the query returns no row; the query's error is passed on. */
  function HotelAvailability(bookings: seq<Booking>, hid: string, checkin: string, checkout: string, fault: bool): (r: Fallible<bool>)
    ensures r.StoreError? <==> fault
    ensures r.Ok? ==> (r.value <==> Available(bookings, hid, checkin, checkout))
  {
    if fault then StoreError
    else
      var rows := Booked(bookings, hid, checkin, checkout);
      assert |rows| > 0 ==> rows[0] in rows;
      Ok(|rows| == 0)
  }

  /** The bookings of one hotel, in store order. */
  function ForHotel(bookings: seq<Booking>, hid: string): (r: seq<Booking>)
    ensures forall b :: b in r <==> b in bookings && b.hid == hid
  {
    if |bookings| == 0 then []
    else
      var rest := ForHotel(bookings[1..], hid);
      assert forall b :: b in bookings <==> b == bookings[0] || b in bookings[1..];
      if bookings[0].hid == hid then [bookings[0]] + rest else rest
  }

  /** Bookings for other hotels never matter: two stores holding the same bookings of `hid` agree. */
  lemma OtherHotelsNeverMatter(bs1: seq<Booking>, bs2: seq<Booking>, hid: string, checkin: string, checkout: string)
    requires ForHotel(bs1, hid) == ForHotel(bs2, hid)
    ensures Available(bs1, hid, checkin, checkout) <==> Available(bs2, hid, checkin, checkout)
  {
    if !Available(bs1, hid, checkin, checkout) {
      var i :| 0 <= i < |bs1| && ConflictsAsWritten(bs1[i], hid, checkin, checkout);
      assert bs1[i] in ForHotel(bs2, hid);
      var j :| 0 <= j < |bs2| && bs2[j] == bs1[i];
    }
    if !Available(bs2, hid, checkin, checkout) {
      var i :| 0 <= i < |bs2| && ConflictsAsWritten(bs2[i], hid, checkin, checkout);
      assert bs2[i] in ForHotel(bs1, hid);
      var j :| 0 <= j < |bs1| && bs1[j] == bs2[i];
    }
  }

  /** A hotel with no bookings is available for any stay. */
  lemma EmptyStoreAvailable(hid: string, checkin: string, checkout: string)
    ensures HotelAvailability([], hid, checkin, checkout, false) == Ok(true)
  {
  }

  /** A stored row whose dates are not of the form `YYYY-MM-DD` never blocks a stay (its DATETIME is NULL). */
  lemma MalformedRowNeverConflicts(e: Booking, hid: string, checkin: string, checkout: string)
    requires !DateShaped(e.checkin) || !DateShaped(e.checkout)
    ensures !ConflictsAsWritten(e, hid, checkin, checkout)
  {
  }

  /** On well-formed dates the condition is the two-disjunct test on the dates themselves. */
  lemma ConflictByDate(e: Booking, hid: string, checkin: string, checkout: string)
    requires DateShaped(e.checkin) && DateShaped(e.checkout) && DateShaped(checkin) && DateShaped(checkout)
    ensures ConflictsAsWritten(e, hid, checkin, checkout) <==>
      && e.hid == hid
      && (|| (DateKey(e.checkin) <= DateKey(checkin) < DateKey(e.checkout))
          || (DateKey(e.checkin) < DateKey(checkout) <= DateKey(e.checkout)))
  {
    SqlDateOrder(e.checkin, checkin);
    SqlDateOrder(checkin, e.checkout);
    SqlDateOrder(e.checkin, checkout);
    SqlDateOrder(checkout, e.checkout);
  }

  /** Half-open overlap of the stay with an existing booking. */
  predicate Overlaps(e: Booking, checkin: string, checkout: string)
    requires DateShaped(e.checkin) && DateShaped(e.checkout) && DateShaped(checkin) && DateShaped(checkout)
  {
    DateKey(e.checkin) < DateKey(checkout) && DateKey(checkin) < DateKey(e.checkout)
  }

  /**
   * For a stay with check-in before check-out, the query reports exactly the
   * overlapping bookings of the hotel except those lying strictly inside the stay.
   */
  lemma ConflictIsOverlapUnlessContained(e: Booking, hid: string, checkin: string, checkout: string)
    requires DateShaped(e.checkin) && DateShaped(e.checkout) && DateShaped(checkin) && DateShaped(checkout)
    requires DateKey(checkin) < DateKey(checkout)
    ensures ConflictsAsWritten(e, hid, checkin, checkout) <==>
      && e.hid == hid
      && Overlaps(e, checkin, checkout)
      && !(DateKey(checkin) < DateKey(e.checkin) && DateKey(e.checkout) < DateKey(checkout))
  {
    ConflictByDate(e, hid, checkin, checkout);
  }

  /** Same-day turnover: a stay starting on an existing check-out, or ending on an existing check-in, is not blocked by it. */
  lemma SameDayTurnover(e: Booking, hid: string, checkin: string, checkout: string)
    requires DateShaped(e.checkin) && DateShaped(e.checkout) && DateShaped(checkin) && DateShaped(checkout)
    requires DateKey(checkin) < DateKey(checkout)
    requires checkin == e.checkout || checkout == e.checkin
    ensures !ConflictsAsWritten(e, hid, checkin, checkout)
  {
    ConflictByDate(e, hid, checkin, checkout);
  }

  /** Re-requesting the very stay of an existing booking of the hotel is refused. */
  lemma SameStayConflicts(e: Booking)
    requires DateShaped(e.checkin) && DateShaped(e.checkout) && DateKey(e.checkin) < DateKey(e.checkout)
    ensures ConflictsAsWritten(e, e.hid, e.checkin, e.checkout)
  {
    ConflictByDate(e, e.hid, e.checkin, e.checkout);
  }

  /** The keys of the dates used in the examples. */
  lemma KeyJan05()
    ensures DateShaped("2024-01-05") && DateKey("2024-01-05") == 20240105
  {
    DateKeyByDigits("2024-01-05");
  }

  lemma KeyJan10()
    ensures DateShaped("2024-01-10") && DateKey("2024-01-10") == 20240110
  {
    DateKeyByDigits("2024-01-10");
  }

  lemma KeyJan12()
    ensures DateShaped("2024-01-12") && DateKey("2024-01-12") == 20240112
  {
    DateKeyByDigits("2024-01-12");
  }

  lemma KeyJan15()
    ensures DateShaped("2024-01-15") && DateKey("2024-01-15") == 20240115
  {
    DateKeyByDigits("2024-01-15");
  }

  lemma KeyJan20()
    ensures DateShaped("2024-01-20") && DateKey("2024-01-20") == 20240120
  {
    DateKeyByDigits("2024-01-20");
  }

  /** The examples below are against an existing booking 2024-01-10..2024-01-15 of the hotel. */
  function January(uid: string, hid: string): (b: Booking) {
    Booking(1, uid, hid, "2024-01-10", "2024-01-15")
  }

  /** A stay 2024-01-12..2024-01-20 overlaps the existing booking's end and is refused. */
  lemma OverlapRefused(uid: string, hid: string)
    ensures !Available([January(uid, hid)], hid, "2024-01-12", "2024-01-20")
  {
    var b := January(uid, hid);
    KeyJan10(); KeyJan15(); KeyJan12(); KeyJan20();
    ConflictByDate(b, hid, "2024-01-12", "2024-01-20");
    assert [b][0] == b;
  }

  /** A stay 2024-01-15..2024-01-20, starting on the existing check-out, is available. */
  lemma TurnoverAfterAvailable(uid: string, hid: string)
    ensures Available([January(uid, hid)], hid, "2024-01-15", "2024-01-20")
  {
    KeyJan10(); KeyJan15(); KeyJan20();
    SameDayTurnover(January(uid, hid), hid, "2024-01-15", "2024-01-20");
  }

  /** A stay 2024-01-05..2024-01-10, ending on the existing check-in, is available. */
  lemma TurnoverBeforeAvailable(uid: string, hid: string)
    ensures Available([January(uid, hid)], hid, "2024-01-05", "2024-01-10")
  {
    KeyJan05(); KeyJan10(); KeyJan15();
    SameDayTurnover(January(uid, hid), hid, "2024-01-05", "2024-01-10");
  }

  /**
   * A stay 2024-01-05..2024-01-20 encloses the existing booking, yet the
   * condition as written does not catch it: the stay is reported available.
   */
  lemma EnclosingStayAvailable(uid: string, hid: string)
    ensures Available([January(uid, hid)], hid, "2024-01-05", "2024-01-20")
  {
    KeyJan05(); KeyJan10(); KeyJan15(); KeyJan20();
    ConflictIsOverlapUnlessContained(January(uid, hid), hid, "2024-01-05", "2024-01-20");
  }
}
