/**
 * Making a booking: `getBookingMsg` picks one message by a first-failure-wins
 * chain (login, required fields, dates, user, hotel, availability), and the
 * `/book` handler inserts a row only when that message is `'success'`.
 * The database is a `Store` object: the user ids, the hotel ids, the
 * `bookings` rows and the next auto-increment id.
 */
module Booking {
  import opened Wrappers
  import opened JsStrings
  import opened JsNumbers
  import opened Dates
  import opened Schema
  import opened Availability

  /** The values `/book` reads: the `uid` cookie and the `hid`, `checkin`, `checkout` body fields. */
  datatype BookingRequest = BookingRequest(uid: Option<string>, hid: Option<string>, checkin: Option<string>, checkout: Option<string>)

  /** What `getBookingMsg` decides, one case per message it can return. */
  datatype Outcome = NotLoggedIn | MissingParams | InvalidDates | UserNotFound | HotelNotFound | Unavailable | ServerError | Success

  const NotLoggedInMsg := "You need to log in first to make a booking"
  const MissingParamsMsg := "Missing required parameters"
  const InvalidDatesMsg := "The dates are invalid"
  const UserNotFoundMsg := "user is not found"
  const HotelNotFoundMsg := "hotel is not found"
  const UnavailableMsg := "We're extremely sorry, this hotel has already been booked in this timeslot, please choose a different date."
  const ServerErrorMsg := "server error"
  const SuccessMsg := "success"

  /** The start of the 200 reply of `/book`, followed by the transaction number. */
  const BookedText := "Booked succesfully! Your transaction number is "

  /** The message string of each outcome; the handler tells the outcomes apart by these strings alone. */
  function Message(o: Outcome): (msg: string)
    ensures |msg| > 0
    ensures msg == SuccessMsg <==> o == Success
    ensures msg == ServerErrorMsg <==> o == ServerError
  {
    match o
    case NotLoggedIn => NotLoggedInMsg
    case MissingParams => MissingParamsMsg
    case InvalidDates => InvalidDatesMsg
    case UserNotFound => UserNotFoundMsg
    case HotelNotFound => HotelNotFoundMsg
    case Unavailable => UnavailableMsg
    case ServerError => ServerErrorMsg
    case Success => SuccessMsg
  }

  /** Different outcomes give different messages. */
  lemma MessagesDistinct(o1: Outcome, o2: Outcome)
    requires Message(o1) == Message(o2)
    ensures o1 == o2
  {
  }

  /** The three body fields are all truthy. */
  predicate FieldsPresent(req: BookingRequest) {
    Truthy(req.hid) && Truthy(req.checkin) && Truthy(req.checkout)
  }

  /** `userIDExist`: whether `select * from users where uid = ?` returns a row. */
  function UserIDExist(users: set<string>, uid: string, fault: bool): (r: Fallible<bool>)
    ensures r.StoreError? <==> fault
    ensures r.Ok? ==> (r.value <==> uid in users)
  {
    if fault then StoreError else Ok(uid in users)
  }

  /** `getHotelByID`: the rows of `select * from hotels where hid = ?` (each row stands for its id). */
  function GetHotelByID(hotels: set<string>, hid: string, fault: bool): (r: Fallible<seq<string>>)
    ensures r.StoreError? <==> fault
    ensures r.Ok? ==> (|r.value| == 0 <==> hid !in hotels) && forall h :: h in r.value ==> h == hid
  {
    if fault then StoreError else if hid in hotels then Ok([hid]) else Ok([])
  }

  /**
   * `userHotelInvalidMsg`: runs both lookups, then reports a missing user
   * before a missing hotel; the empty message means both exist. An error of
   * either query is passed on, even when the user is missing.
   */
  function UserHotelInvalidMsg(users: set<string>, hotels: set<string>, uid: string, hid: string, faults: Faults): (r: Fallible<string>)
    ensures r.StoreError? <==> faults.userQuery || faults.hotelQuery
    ensures r.Ok? ==> (r.value == "" <==> uid in users && hid in hotels)
    ensures r.Ok? && uid !in users ==> r.value == UserNotFoundMsg
    ensures r.Ok? && uid in users && hid !in hotels ==> r.value == HotelNotFoundMsg
  {
    var userExist := UserIDExist(users, uid, faults.userQuery);
    if userExist.StoreError? then StoreError
    else
      var hotel := GetHotelByID(hotels, hid, faults.hotelQuery);
      if hotel.StoreError? then StoreError
      else if !userExist.value then Ok(UserNotFoundMsg)
      else if |hotel.value| == 0 then Ok(HotelNotFoundMsg)
      else Ok("")
  }

  /** The outcome of a booking request, as one flat list of checks in the order they take effect. */
  function Decide(users: set<string>, hotels: set<string>, bookings: seq<Booking>,
                  req: BookingRequest, parses: DateParser, faults: Faults): (o: Outcome)
  {
    if !Truthy(req.uid) then NotLoggedIn
    else if !FieldsPresent(req) then MissingParams
    else if !ValidInAndOut(req.checkin.value, req.checkout.value, parses) then InvalidDates
    else if faults.userQuery || faults.hotelQuery then ServerError
    else if req.uid.value !in users then UserNotFound
    else if req.hid.value !in hotels then HotelNotFound
    else if faults.bookingsQuery then ServerError
    else if !Available(bookings, req.hid.value, req.checkin.value, req.checkout.value) then Unavailable
    else Success
  }

  /** A booking is made exactly when every check passes and no store call fails. */
  lemma SuccessIff(users: set<string>, hotels: set<string>, bookings: seq<Booking>,
                   req: BookingRequest, parses: DateParser, faults: Faults)
    ensures Decide(users, hotels, bookings, req, parses, faults) == Success <==>
      && Truthy(req.uid) && FieldsPresent(req)
      && ValidInAndOut(req.checkin.value, req.checkout.value, parses)
      && req.uid.value in users && req.hid.value in hotels
      && !faults.userQuery && !faults.hotelQuery && !faults.bookingsQuery
      && Available(bookings, req.hid.value, req.checkin.value, req.checkout.value)
  {
  }

  /** `'server error'` comes only from a failed store call, never from the request alone. */
  lemma ServerErrorNeedsFault(users: set<string>, hotels: set<string>, bookings: seq<Booking>,
                              req: BookingRequest, parses: DateParser)
    ensures Decide(users, hotels, bookings, req, parses, NoFaults) != ServerError
  {
  }

  /**
   * Everything decided before the store is consulted (login, fields, dates)
   * does not depend on the store's contents or its failures.
   */
  lemma RequestChecksIgnoreStore(users: set<string>, hotels: set<string>, bookings: seq<Booking>, faults: Faults,
                                 users': set<string>, hotels': set<string>, bookings': seq<Booking>, faults': Faults,
                                 req: BookingRequest, parses: DateParser)
    requires Decide(users, hotels, bookings, req, parses, faults) in {NotLoggedIn, MissingParams, InvalidDates}
    ensures Decide(users', hotels', bookings', req, parses, faults') == Decide(users, hotels, bookings, req, parses, faults)
  {
  }

  /** After a successful booking, the same request for the same hotel and dates is refused as unavailable. */
  lemma RepeatBookingRefused(users: set<string>, hotels: set<string>, bookings: seq<Booking>,
                             req: BookingRequest, parses: DateParser, id: nat)
    requires Decide(users, hotels, bookings, req, parses, NoFaults) == Success
    ensures var row := Booking(id, req.uid.value, req.hid.value, req.checkin.value, req.checkout.value);
      Decide(users, hotels, bookings + [row], req, parses, NoFaults) == Unavailable
  {
    var row := Booking(id, req.uid.value, req.hid.value, req.checkin.value, req.checkout.value);
    SameStayConflicts(row);
    assert (bookings + [row])[|bookings|] == row;
  }

  /**
   * The availability condition as written lets a stay enclose an existing
   * booking: a request whose dates strictly contain a booking of the same
   * hotel, with no other booking stored, succeeds and leaves two overlapping
   * bookings.
   */
  lemma EnclosingStayAccepted(users: set<string>, hotels: set<string>, e: Booking, req: BookingRequest, parses: DateParser)
    requires Truthy(req.uid) && FieldsPresent(req) && req.uid.value in users && req.hid.value in hotels
    requires req.hid.value == e.hid && DateShaped(e.checkin) && DateShaped(e.checkout)
    requires DateKey(e.checkin) < DateKey(e.checkout)
    requires IsValidDate(req.checkin.value, parses) && IsValidDate(req.checkout.value, parses)
    requires DateKey(req.checkin.value) < DateKey(e.checkin) && DateKey(e.checkout) < DateKey(req.checkout.value)
    ensures Decide(users, hotels, [e], req, parses, NoFaults) == Success
  {
    ConflictIsOverlapUnlessContained(e, e.hid, req.checkin.value, req.checkout.value);
  }

  /** The reply to `/book`: 500 for a store failure, 200 with the new id on success, 400 with the message otherwise. */
  datatype Reply = Reply(status: nat, body: string)

  function BookReply(o: Outcome, insertFailed: bool, id: nat): (r: Reply)
    ensures r.status == 200 <==> o == Success && !insertFailed
    ensures r.status == 500 <==> o == ServerError || (o == Success && insertFailed)
    ensures r.status == 400 <==> o != Success && o != ServerError
    ensures r.status == 400 ==> r.body == Message(o)
    ensures r.status == 500 ==> r.body == ServerFailureText
    ensures r.status == 200 ==> r.body == BookedText + NatToString(id)
  {
    if o == ServerError || (o == Success && insertFailed) then Reply(500, ServerFailureText)
    else if o == Success then Reply(200, BookedText + NatToString(id))
    else Reply(400, Message(o))
  }

  /** Transaction ids are strictly increasing in store order and below the next id to hand out. */
  predicate IdsIncreasing(bookings: seq<Booking>, nextId: nat) {
    && (forall i :: 0 <= i < |bookings| ==> bookings[i].id < nextId)
    && (forall i, j :: 0 <= i < j < |bookings| ==> bookings[i].id < bookings[j].id)
  }

  /** The database as the booking core sees it. */
  class Store {
    var users: set<string>
    var hotels: set<string>
    var bookings: seq<Booking>
    var nextId: nat

    ghost predicate Valid()
      reads this
    {
      IdsIncreasing(bookings, nextId)
    }

    constructor (users: set<string>, hotels: set<string>, bookings: seq<Booking>, nextId: nat)
      requires IdsIncreasing(bookings, nextId)
      ensures Valid()
      ensures this.users == users && this.hotels == hotels && this.bookings == bookings && this.nextId == nextId
    {
      this.users := users;
      this.hotels := hotels;
      this.bookings := bookings;
      this.nextId := nextId;
    }

    /**
     * `getBookingMsg`: the message for a request; nothing in the store changes.
     * Each check takes effect only when every earlier one passed.
     */
    method GetBookingMsg(req: BookingRequest, parses: DateParser, faults: Faults) returns (msg: string)
      ensures msg == Message(Decide(users, hotels, bookings, req, parses, faults))
      ensures !Truthy(req.uid) ==> msg == NotLoggedInMsg
      ensures Truthy(req.uid) && !FieldsPresent(req) ==> msg == MissingParamsMsg
      ensures Truthy(req.uid) && FieldsPresent(req) ==>
        var uid, hid, checkin, checkout := req.uid.value, req.hid.value, req.checkin.value, req.checkout.value;
        && (!ValidInAndOut(checkin, checkout, parses) ==> msg == InvalidDatesMsg)
        && (ValidInAndOut(checkin, checkout, parses) ==>
             && (faults.userQuery || faults.hotelQuery ==> msg == ServerErrorMsg)
             && (!faults.userQuery && !faults.hotelQuery ==>
                  && (uid !in users ==> msg == UserNotFoundMsg)
                  && (uid in users && hid !in hotels ==> msg == HotelNotFoundMsg)
                  && (uid in users && hid in hotels ==>
                       if faults.bookingsQuery then msg == ServerErrorMsg
                       else msg == (if Available(bookings, hid, checkin, checkout) then SuccessMsg else UnavailableMsg))))
    {
      msg := "";
      if Truthy(req.uid) && Truthy(req.hid) && Truthy(req.checkin) && Truthy(req.checkout) {
        if ValidInAndOut(req.checkin.value, req.checkout.value, parses) {
          var existErrorMsg := UserHotelInvalidMsg(users, hotels, req.uid.value, req.hid.value, faults);
          if existErrorMsg.StoreError? {
            msg := ServerErrorMsg;
          } else if existErrorMsg.value == "" {
            var available := HotelAvailability(bookings, req.hid.value, req.checkin.value, req.checkout.value, faults.bookingsQuery);
            if available.StoreError? {
              msg := ServerErrorMsg;
            } else if available.value {
              msg := SuccessMsg;
            } else {
              msg := UnavailableMsg;
            }
          } else {
            msg := existErrorMsg.value;
          }
        } else {
          msg := InvalidDatesMsg;
        }
      } else if !Truthy(req.uid) {
        msg := NotLoggedInMsg;
      } else {
        msg := MissingParamsMsg;
      }
    }

    /** `insert into bookings ...`: appends the row under the next id and reports that id, or fails and changes nothing. */
    method Insert(uid: string, hid: string, checkin: string, checkout: string, fault: bool) returns (r: Fallible<nat>)
      requires Valid()
      modifies this
      ensures Valid()
      ensures users == old(users) && hotels == old(hotels)
      ensures fault ==> r == StoreError && bookings == old(bookings) && nextId == old(nextId)
      ensures !fault ==> && r == Ok(old(nextId))
                         && bookings == old(bookings) + [Booking(old(nextId), uid, hid, checkin, checkout)]
                         && nextId == old(nextId) + 1
    {
      if fault {
        r := StoreError;
      } else {
        r := Ok(nextId);
        bookings := bookings + [Booking(nextId, uid, hid, checkin, checkout)];
        nextId := nextId + 1;
      }
    }

    /**
     * The `/book` handler: a row is inserted only when the message is
     * `'success'` and the insert itself does not fail; every other request
     * leaves the store as it was.
     */
    method Book(req: BookingRequest, parses: DateParser, faults: Faults) returns (reply: Reply)
      requires Valid()
      modifies this
      ensures Valid()
      ensures users == old(users) && hotels == old(hotels)
      ensures var o := Decide(old(users), old(hotels), old(bookings), req, parses, faults);
        && reply == BookReply(o, faults.insert, old(nextId))
        && if o == Success && !faults.insert then
             && bookings == old(bookings) + [Booking(old(nextId), req.uid.value, req.hid.value, req.checkin.value, req.checkout.value)]
             && nextId == old(nextId) + 1
           else
             bookings == old(bookings) && nextId == old(nextId)
    {
      var bookingMsg := GetBookingMsg(req, parses, faults);
      if bookingMsg == ServerErrorMsg {
        reply := Reply(500, ServerFailureText);
      } else if bookingMsg == SuccessMsg {
        var result := Insert(req.uid.value, req.hid.value, req.checkin.value, req.checkout.value, faults.insert);
        match result
        case StoreError =>
          reply := Reply(500, ServerFailureText);
        case Ok(lastID) =>
          reply := Reply(200, BookedText + NatToString(lastID));
      } else {
        reply := Reply(400, bookingMsg);
      }
    }
  }
}
