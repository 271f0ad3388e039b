/** The hostel booking flow: the documents it reads and writes, the mapping of
    room documents to rooms, and the view model that walks a student from
    hostel to floor to room to a booking. Every remote call runs to completion
    before the next statement; whether it succeeded is a parameter. */
module HostelBooking {
  import opened Collections
  import opened Text
  import opened Ints
  import opened Remote
  import opened HostelModel

  /** The screen the booking flow shows. */
  datatype HostelUiState =
    | Loading
    | SelectHostel
    | SelectFloor
    | SelectRoom
    | RoomBooked
    | Error(message: string)

  /** `Users/{uid}`: the two profile fields the flow reads. */
  datatype UserDoc = UserDoc(gender: Option<string>, firstName: Option<string>)

  /** A document of `hostelBookings`. */
  datatype BookingDoc = BookingDoc(
    userId: string,
    hostelName: Option<string>,
    floor: Option<string>,
    roomNumber: Option<string>,
    timestamp: int,
    active: bool)

  /** A document of `Hostel/{hostel}/{floor}`; numbers are stored as 64-bit longs. */
  datatype RoomDoc = RoomDoc(
    id: string,
    capacity: Option<int>,
    maxCapacity: Option<int>,
    name: Option<string>,
    availability: Option<bool>)

  /** A document of `hostelAnnouncements`. */
  datatype AnnouncementDoc = AnnouncementDoc(hostel: Option<string>, title: Option<string>, message: Option<string>)

  /** A document of `hostelComplaints`. */
  datatype ComplaintDoc = ComplaintDoc(
    userId: string,
    hostelName: string,
    roomNumber: string,
    title: string,
    message: string,
    timestamp: int,
    status: string)

  /** The (hostel, floor) pair naming the room collection `Hostel/{hostel}/{floor}`. */
  type FloorPath = (string, string)

  predicate DistinctIds(docs: seq<RoomDoc>) {
    forall i, j | 0 <= i < j < |docs| :: docs[i].id != docs[j].id
  }

  /** The remote document database, one field per collection the flow uses. */
  class DocumentStore {
    var users: map<string, UserDoc>
    var bookings: seq<BookingDoc>
    var rooms: map<FloorPath, seq<RoomDoc>>
    var announcements: seq<AnnouncementDoc>
    var complaints: seq<ComplaintDoc>

    /** Document ids are unique within a collection. */
    ghost predicate Valid()
      reads this
    {
      forall p | p in rooms :: DistinctIds(rooms[p])
    }

    constructor(users: map<string, UserDoc>, bookings: seq<BookingDoc>, rooms: map<FloorPath, seq<RoomDoc>>,
                announcements: seq<AnnouncementDoc>, complaints: seq<ComplaintDoc>)
      requires forall p | p in rooms :: DistinctIds(rooms[p])
      ensures Valid()
      ensures this.users == users && this.bookings == bookings && this.rooms == rooms
      ensures this.announcements == announcements && this.complaints == complaints
    {
      this.users := users;
      this.bookings := bookings;
      this.rooms := rooms;
      this.announcements := announcements;
      this.complaints := complaints;
    }
  }

  // ---------------------------------------------------------------------------
  // Reading documents

  /** A profile that does not exist reads as a document without fields. */
  function ProfileOf(users: map<string, UserDoc>, uid: string): UserDoc {
    if uid in users then users[uid] else UserDoc(None, None)
  }

  /** A room collection that does not exist reads as empty. */
  function FloorRooms(rooms: map<FloorPath, seq<RoomDoc>>, path: FloorPath): seq<RoomDoc> {
    if path in rooms then rooms[path] else []
  }

  /** The test of the active-bookings query: `userId == uid` and `active == true`. */
  function ActiveFor(uid: string): BookingDoc -> bool {
    (b: BookingDoc) => b.userId == uid && b.active
  }

  /** The query for a student's active bookings, in collection order: every
      active booking of the student and nothing else. */
  function ActiveBookings(bookings: seq<BookingDoc>, uid: string): (r: seq<BookingDoc>)
    ensures forall b | b in r :: b in bookings && b.userId == uid && b.active
    ensures forall b | b in bookings && b.userId == uid && b.active :: b in r
  {
    var r := Filter(bookings, ActiveFor(uid));
    assert forall b | b in bookings && b.userId == uid && b.active :: b in r by {
      forall b | b in bookings && b.userId == uid && b.active
        ensures b in r
      {
        FilterMembership(bookings, ActiveFor(uid), b);
      }
    }
    r
  }

  /** The booking the app reads is the student's earliest active booking in
      collection order. */
  lemma ActiveBookingIsFirst(bookings: seq<BookingDoc>, uid: string)
    requires ActiveBookings(bookings, uid) != []
    ensures exists i | 0 <= i < |bookings| ::
      && bookings[i] == ActiveBookings(bookings, uid)[0]
      && forall j | 0 <= j < i :: !(bookings[j].userId == uid && bookings[j].active)
  {
    FilterHeadIsFirstOrNull(bookings, ActiveFor(uid));
    FirstOrNullIsFirst(bookings, ActiveFor(uid));
  }

  /** The room a booking document names, with "" for missing fields. */
  function BookingInfo(b: BookingDoc): RoomInfo {
    RoomInfo(b.hostelName.GetOr(""), b.floor.GetOr(""), b.roomNumber.GetOr(""))
  }

  /** The occupant count a room document holds, as a 32-bit `Int` (0 when absent). */
  function StoredCapacity(d: RoomDoc): Int32 {
    match d.capacity
    case Some(c) => ToInt32(c)
    case None => 0
  }

  /** The room size a room document holds, as a 32-bit `Int` (4 when absent). */
  function StoredMaxCapacity(d: RoomDoc): Int32 {
    match d.maxCapacity
    case Some(c) => ToInt32(c)
    case None => 4
  }

  /** Whether the room mapping keeps a document: its stored `Availability` flag,
      or, without one, whether a bed is free. */
  predicate JudgedAvailable(d: RoomDoc) {
    d.availability.GetOr(StoredCapacity(d) < StoredMaxCapacity(d))
  }

  /** One room document as a room, or nothing when it is judged unavailable. The
      room's `available` is recomputed from the counts, whatever the flag said. */
  function ParseRoom(d: RoomDoc): (r: Option<RoomData>)
    ensures r.Some? <==> JudgedAvailable(d)
    ensures r.Some? ==> (r.value.available <==> r.value.capacity < r.value.maxCapacity)
    ensures r.Some? ==> r.value.id == d.id && r.value.number == d.name.GetOr(d.id)
    ensures r.Some? ==> r.value.capacity == StoredCapacity(d) && r.value.maxCapacity == StoredMaxCapacity(d)
  {
    var capacity := StoredCapacity(d);
    var maxCapacity := StoredMaxCapacity(d);
    if JudgedAvailable(d) then
      Some(RoomData(d.id, d.name.GetOr(d.id), capacity, maxCapacity, capacity < maxCapacity))
    else None
  }

  /** The rooms a room query yields: the documents judged available, mapped, in order. */
  function KeptRooms(docs: seq<RoomDoc>): (rooms: seq<RoomData>)
    ensures |rooms| <= |docs|
  {
    FilterMap(docs, ParseRoom)
  }

  /** A room is in the list exactly when some document maps to it; every listed
      room's `available` agrees with its counts; the document order is kept. */
  lemma KeptRoomsExactly(docs: seq<RoomDoc>, more: seq<RoomDoc>, r: RoomData)
    ensures r in KeptRooms(docs) <==> exists d | d in docs :: JudgedAvailable(d) && ParseRoom(d) == Some(r)
    ensures r in KeptRooms(docs) ==> (r.available <==> r.capacity < r.maxCapacity)
    ensures KeptRooms(docs + more) == KeptRooms(docs) + KeptRooms(more)
  {
    FilterMapMembership(docs, ParseRoom, r);
    FilterMapConcat(docs, more, ParseRoom);
  }

  /** A document flagged available is kept even when its room is full, but then
      with `available` false; a document flagged unavailable is dropped even when
      a bed is free. */
  lemma StoredFlagOverridesCounts()
    ensures KeptRooms([RoomDoc("a", Some(4), Some(4), None, Some(true))]) == [RoomData("a", "a", 4, 4, false)]
    ensures KeptRooms([RoomDoc("b", Some(0), Some(2), None, Some(false))]) == []
    ensures KeptRooms([RoomDoc("c", None, None, Some("7"), None)]) == [RoomData("c", "7", 0, 4, true)]
  {
  }

  /** The first room document with a given id, as the booking reads it. */
  function FindRoom(docs: seq<RoomDoc>, id: string): (d: Option<RoomDoc>)
    ensures d.Some? ==> d.value in docs && d.value.id == id
    ensures d.None? ==> forall x | x in docs :: x.id != id
  {
    FirstOrNull(docs, (x: RoomDoc) => x.id == id)
  }

  /** The occupant count the booking reads before incrementing it. */
  function ReadCapacity(d: Option<RoomDoc>): Int32 {
    match d
    case Some(doc) => StoredCapacity(doc)
    case None => 0
  }

  /** The room collection after `update("Capacity", value)` on document `id`. */
  function WithCapacity(docs: seq<RoomDoc>, id: string, value: int): (r: seq<RoomDoc>)
    ensures |r| == |docs|
    ensures forall i | 0 <= i < |docs| :: r[i].id == docs[i].id
  {
    seq(|docs|, i requires 0 <= i < |docs| => if docs[i].id == id then docs[i].(capacity := Some(value)) else docs[i])
  }

  /** Updating a count keeps the document ids unique. */
  lemma WithCapacityKeepsIds(docs: seq<RoomDoc>, id: string, value: int)
    requires DistinctIds(docs)
    ensures DistinctIds(WithCapacity(docs, id, value))
  {
  }

  /** Updating one room changes that one document's count, and nothing else. */
  lemma WithCapacityChangesOneRoom(docs: seq<RoomDoc>, id: string, value: int)
    requires DistinctIds(docs) && FindRoom(docs, id).Some?
    ensures exists i | 0 <= i < |docs| ::
      && docs[i].id == id
      && WithCapacity(docs, id, value)[i] == docs[i].(capacity := Some(value))
      && forall j | 0 <= j < |docs| && j != i :: WithCapacity(docs, id, value)[j] == docs[j]
  {
    var d := FindRoom(docs, id).value;
    var i :| 0 <= i < |docs| && docs[i] == d;
    assert forall j | 0 <= j < |docs| && j != i :: docs[j].id != id;
  }

  /** The count a successful booking writes: the one it read plus one, in 32-bit
      `Int` arithmetic, with no check against the room size. */
  function NextCapacity(d: Option<RoomDoc>): Int32 {
    ToInt32(ReadCapacity(d) + 1)
  }

  /** A booking raises a room's count by exactly one, even when the room is already full;
      at `Int.MAX_VALUE` the count wraps to `Int.MIN_VALUE`. */
  lemma NextCapacityIsIncrement(d: RoomDoc)
    ensures StoredCapacity(d) < MaxInt32 ==> NextCapacity(Some(d)) == StoredCapacity(d) + 1
    ensures StoredCapacity(d) == MaxInt32 ==> NextCapacity(Some(d)) == MinInt32
    ensures StoredMaxCapacity(d) <= StoredCapacity(d) < MaxInt32 ==> NextCapacity(Some(d)) > StoredMaxCapacity(d)
  {
    IncrementWraps(StoredCapacity(d));
  }

  /** The test of the announcements query: `hostel == hostelName`. */
  function ForHostel(hostel: string): AnnouncementDoc -> bool {
    (a: AnnouncementDoc) => a.hostel == Some(hostel)
  }

  /** The announcements query: the first five of the hostel's announcements in
      store order (all of them when there are no more than five). */
  function AnnouncementQuery(docs: seq<AnnouncementDoc>, hostel: string): (r: seq<AnnouncementDoc>)
    ensures forall a | a in r :: a in docs && a.hostel == Some(hostel)
    ensures var m := Filter(docs, ForHostel(hostel));
      && |r| == (if |m| <= 5 then |m| else 5)
      && r == m[..|r|]
  {
    var matching := Filter(docs, ForHostel(hostel));
    if |matching| <= 5 then matching else matching[..5]
  }

  /** Fewer than six announcements for the hostel are all shown. */
  lemma FewAnnouncementsAllShown(docs: seq<AnnouncementDoc>, hostel: string, a: AnnouncementDoc)
    requires |Filter(docs, ForHostel(hostel))| <= 5
    requires a in docs && a.hostel == Some(hostel)
    ensures a in AnnouncementQuery(docs, hostel)
  {
    FilterMembership(docs, ForHostel(hostel), a);
  }

  /** The announcements shown after a load: the fetched ones, in order, with ""
      for missing fields, or the sample ones when the fetch failed or found none. */
  function AnnouncementsAfter(docs: seq<AnnouncementDoc>, hostel: string, fetch: Outcome): (shown: seq<HostelAnnouncement>)
    ensures 1 <= |shown| <= 5
    ensures fetch.Failed? || AnnouncementQuery(docs, hostel) == [] ==> shown == SampleAnnouncements
    ensures fetch.Ok? && AnnouncementQuery(docs, hostel) != [] ==>
      var found := AnnouncementQuery(docs, hostel);
      && |shown| == |found|
      && forall i | 0 <= i < |found| ::
        shown[i] == HostelAnnouncement(found[i].title.GetOr(""), found[i].message.GetOr(""))
  {
    var found := AnnouncementQuery(docs, hostel);
    if fetch.Failed? || found == [] then SampleAnnouncements
    else
      seq(|found|, i requires 0 <= i < |found| =>
        HostelAnnouncement(found[i].title.GetOr(""), found[i].message.GetOr("")))
  }

  // ---------------------------------------------------------------------------
  // The view model

  class HostelViewModel {
    var uiState: HostelUiState
    var userGender: Option<string>
    var userName: string
    var userRoomInfo: Option<RoomInfo>
    var selectedHostel: Option<string>
    var selectedFloor: Option<string>
    var roomData: seq<RoomData>
    var showRoomList: bool
    var hostelAnnouncements: seq<HostelAnnouncement>
    var complaintTitle: string
    var complaintMessage: string
    const db: DocumentStore

    /** The fields as the view model is created, before its first `LoadUserData`. */
    constructor(db: DocumentStore)
      ensures this.db == db && uiState == Loading
      ensures userGender == None && userName == "" && userRoomInfo == None
      ensures selectedHostel == None && selectedFloor == None && roomData == [] && !showRoomList
      ensures hostelAnnouncements == [] && complaintTitle == "" && complaintMessage == ""
    {
      this.db := db;
      uiState := Loading;
      userGender, userName, userRoomInfo := None, "", None;
      selectedHostel, selectedFloor, roomData, showRoomList := None, None, [], false;
      hostelAnnouncements, complaintTitle, complaintMessage := [], "", "";
    }

    /** Loads the profile and any active booking of the signed-in student:
        `RoomBooked` with the first active booking, `SelectHostel` without one,
        `Error` when nobody is signed in or a read fails. */
    method LoadUserData(currentUser: Option<string>, profileFetch: Outcome, bookingsFetch: Outcome,
                        announcementsFetch: Outcome)
      modifies this`uiState, this`userGender, this`userName, this`userRoomInfo, this`hostelAnnouncements
      ensures currentUser.None? ==>
        && uiState == Error("User not authenticated")
        && userGender == old(userGender) && userName == old(userName)
        && userRoomInfo == old(userRoomInfo) && hostelAnnouncements == old(hostelAnnouncements)
      ensures currentUser.Some? && profileFetch.Failed? ==>
        && uiState == Error("Failed to load user data: " + MessageText(profileFetch.message))
        && userGender == Some("male") && userName == old(userName)
        && userRoomInfo == old(userRoomInfo) && hostelAnnouncements == old(hostelAnnouncements)
      ensures currentUser.Some? && profileFetch.Ok? ==>
        userName == ProfileOf(db.users, currentUser.value).firstName.GetOr("")
      ensures currentUser.Some? && profileFetch.Ok? && bookingsFetch.Failed? ==>
        && uiState == Error("Failed to load user data: " + MessageText(bookingsFetch.message))
        && userGender == Some("male")
        && userRoomInfo == old(userRoomInfo) && hostelAnnouncements == old(hostelAnnouncements)
      ensures currentUser.Some? && profileFetch.Ok? && bookingsFetch.Ok? ==>
        userGender == Some(ProfileOf(db.users, currentUser.value).gender.GetOr("male"))
      ensures currentUser.Some? && profileFetch.Ok? && bookingsFetch.Ok? ==>
        var active := ActiveBookings(db.bookings, currentUser.value);
        if active != [] then
          && uiState == RoomBooked
          && userRoomInfo == Some(BookingInfo(active[0]))
          && hostelAnnouncements == AnnouncementsAfter(db.announcements, active[0].hostelName.GetOr(""), announcementsFetch)
        else
          && uiState == HostelUiState.SelectHostel
          && userRoomInfo == old(userRoomInfo) && hostelAnnouncements == old(hostelAnnouncements)
    {
      uiState := Loading;
      if currentUser.None? {
        uiState := Error("User not authenticated");
        return;
      }
      var uid := currentUser.value;
      if profileFetch.Failed? {
        uiState := Error("Failed to load user data: " + MessageText(profileFetch.message));
        userGender := Some("male");
        return;
      }
      var profile := ProfileOf(db.users, uid);
      userGender := Some(profile.gender.GetOr("male"));
      userName := profile.firstName.GetOr("");
      if bookingsFetch.Failed? {
        uiState := Error("Failed to load user data: " + MessageText(bookingsFetch.message));
        userGender := Some("male");
        return;
      }
      var active := ActiveBookings(db.bookings, uid);
      if active != [] {
        userRoomInfo := Some(BookingInfo(active[0]));
        LoadAnnouncements(announcementsFetch);
        uiState := RoomBooked;
      } else {
        uiState := HostelUiState.SelectHostel;
      }
    }

    /** Fetches the announcements of the booked hostel; does nothing without a booking. */
    method LoadAnnouncements(fetch: Outcome)
      modifies this`hostelAnnouncements
      ensures userRoomInfo.None? ==> hostelAnnouncements == old(hostelAnnouncements)
      ensures userRoomInfo.Some? ==>
        hostelAnnouncements == AnnouncementsAfter(db.announcements, userRoomInfo.value.hostelName, fetch)
    {
      if userRoomInfo.None? {
        return;
      }
      hostelAnnouncements := AnnouncementsAfter(db.announcements, userRoomInfo.value.hostelName, fetch);
    }

    /** Chooses a hostel and moves on to the floors; nothing else changes. */
    method SelectHostel(hostelName: string)
      modifies this`selectedHostel, this`uiState
      ensures selectedHostel == Some(hostelName) && uiState == HostelUiState.SelectFloor
    {
      selectedHostel := Some(hostelName);
      uiState := HostelUiState.SelectFloor;
    }

    /** Chooses a floor and loads its rooms. */
    method SelectFloor(floorName: string, roomsFetch: Outcome)
      modifies this`selectedFloor, this`uiState, this`roomData, this`showRoomList
      ensures selectedFloor == Some(floorName)
      ensures selectedHostel.None? ==>
        uiState == Loading && roomData == old(roomData) && showRoomList == old(showRoomList)
      ensures selectedHostel.Some? ==>
        && uiState == SelectRoom && showRoomList
        && roomData == RoomsAfterFetch(FloorRooms(db.rooms, (selectedHostel.value, floorName)), roomsFetch)
    {
      selectedFloor := Some(floorName);
      LoadRooms(roomsFetch);
    }

    /** Queries the rooms of the selected floor. A failed query falls back to
        the sample rooms; it never shows an error. Without a selected hostel or
        floor the screen stays at `Loading`. */
    method LoadRooms(roomsFetch: Outcome)
      modifies this`uiState, this`roomData, this`showRoomList
      ensures selectedHostel.None? || selectedFloor.None? ==>
        uiState == Loading && roomData == old(roomData) && showRoomList == old(showRoomList)
      ensures selectedHostel.Some? && selectedFloor.Some? ==>
        && uiState == SelectRoom && showRoomList
        && roomData == RoomsAfterFetch(FloorRooms(db.rooms, (selectedHostel.value, selectedFloor.value)), roomsFetch)
    {
      uiState := Loading;
      if selectedHostel.None? || selectedFloor.None? {
        return;
      }
      var path := (selectedHostel.value, selectedFloor.value);
      if roomsFetch.Failed? {
        roomData := SampleRooms;
      } else {
        roomData := KeptRooms(FloorRooms(db.rooms, path));
      }
      showRoomList := true;
      uiState := SelectRoom;
    }

    /** Back from the floors: both selections are cleared and the room list is hidden (its rooms are kept). */
    method GoBackToHostels()
      modifies this`selectedHostel, this`selectedFloor, this`showRoomList, this`uiState
      ensures selectedHostel == None && selectedFloor == None && !showRoomList
      ensures uiState == HostelUiState.SelectHostel
    {
      selectedHostel := None;
      selectedFloor := None;
      showRoomList := false;
      uiState := HostelUiState.SelectHostel;
    }

    /** Back from the rooms: the floor is cleared and the room list hidden (its rooms are kept); the hostel stays. */
    method GoBackToFloors()
      modifies this`selectedFloor, this`showRoomList, this`uiState
      ensures selectedFloor == None && !showRoomList
      ensures uiState == HostelUiState.SelectFloor
    {
      selectedFloor := None;
      showRoomList := false;
      uiState := HostelUiState.SelectFloor;
    }

    method ResetSelections()
      modifies this`selectedHostel, this`selectedFloor, this`showRoomList
      ensures selectedHostel == None && selectedFloor == None && !showRoomList
    {
      selectedHostel := None;
      selectedFloor := None;
      showRoomList := false;
    }

    /** Books a room of the selected floor: adds an active booking, then reads the
        room's count and writes it back plus one. Without a selected hostel and
        floor it returns before changing anything. */
    method BookRoom(roomId: string, roomNumber: string, currentUser: Option<string>, now: int,
                    addBooking: Outcome, readRoom: Outcome, updateRoom: Outcome, announcementsFetch: Outcome)
      requires db.Valid()
      // The store refuses to update a room document that does not exist.
      requires selectedHostel.Some? && selectedFloor.Some?
        && FindRoom(FloorRooms(db.rooms, (selectedHostel.value, selectedFloor.value)), roomId).None?
        ==> updateRoom.Failed?
      modifies this`uiState, this`userRoomInfo, this`hostelAnnouncements, this`selectedHostel,
               this`selectedFloor, this`showRoomList, db`bookings, db`rooms
      ensures db.Valid()
      ensures BookRoomEffect(roomId, roomNumber, currentUser, now, addBooking, readRoom, updateRoom, announcementsFetch)
    {
      if selectedHostel.None? || selectedFloor.None? {
        return;
      }
      var hostelName, floorName := selectedHostel.value, selectedFloor.value;
      uiState := Loading;
      if currentUser.Some? {
        WriteBooking(hostelName, floorName, roomId, roomNumber, currentUser.value, now,
                     addBooking, readRoom, updateRoom, announcementsFetch);
      }
    }

    /** The part of `BookRoom` that runs once the hostel, floor and user are known. */
    method WriteBooking(hostelName: string, floorName: string, roomId: string, roomNumber: string, uid: string,
                        now: int, addBooking: Outcome, readRoom: Outcome, updateRoom: Outcome,
                        announcementsFetch: Outcome)
      requires db.Valid()
      requires FindRoom(FloorRooms(db.rooms, (hostelName, floorName)), roomId).None? ==> updateRoom.Failed?
      modifies this`uiState, this`userRoomInfo, this`hostelAnnouncements, this`selectedHostel,
               this`selectedFloor, this`showRoomList, db`bookings, db`rooms
      ensures db.Valid()
      ensures BookingSteps(hostelName, floorName, roomId, roomNumber, Some(uid), now,
                           addBooking, readRoom, updateRoom, announcementsFetch)
    {
      if addBooking.Failed? {
        uiState := Error("Failed to book room: " + MessageText(addBooking.message));
        return;
      }
      db.bookings := db.bookings + [BookingDoc(uid, Some(hostelName), Some(floorName), Some(roomNumber), now, true)];
      if readRoom.Failed? {
        uiState := Error("Failed to book room: " + MessageText(readRoom.message));
        return;
      }
      if updateRoom.Failed? {
        uiState := Error("Failed to book room: " + MessageText(updateRoom.message));
        return;
      }
      var path := (hostelName, floorName);
      var docs := FloorRooms(db.rooms, path);
      var next := NextCapacity(FindRoom(docs, roomId));
      WithCapacityKeepsIds(docs, roomId, next);
      db.rooms := db.rooms[path := WithCapacity(docs, roomId, next)];
      userRoomInfo := Some(RoomInfo(hostelName, floorName, roomNumber));
      LoadAnnouncements(announcementsFetch);
      ResetSelections();
      uiState := RoomBooked;
    }

    /** The selection and booking fields keep their values. */
    twostate predicate FlowUnchanged()
      reads this
    {
      && selectedHostel == old(selectedHostel) && selectedFloor == old(selectedFloor)
      && showRoomList == old(showRoomList) && userRoomInfo == old(userRoomInfo)
      && hostelAnnouncements == old(hostelAnnouncements)
    }

    /** What `BookRoom` does, following the source's sequence of remote calls. */
    twostate predicate BookRoomEffect(roomId: string, roomNumber: string, currentUser: Option<string>, now: int,
                                      addBooking: Outcome, readRoom: Outcome, updateRoom: Outcome,
                                      announcementsFetch: Outcome)
      reads this, db
    {
      && (old(selectedHostel).None? || old(selectedFloor).None? ==>
            // Nothing changes.
            uiState == old(uiState) && db.bookings == old(db.bookings) && db.rooms == old(db.rooms) && FlowUnchanged())
      && (old(selectedHostel).Some? && old(selectedFloor).Some? ==>
            BookingSteps(old(selectedHostel).value, old(selectedFloor).value, roomId, roomNumber, currentUser, now,
                         addBooking, readRoom, updateRoom, announcementsFetch))
    }

    /** `BookRoom` once the hostel and floor are known. */
    twostate predicate BookingSteps(hostelName: string, floorName: string, roomId: string, roomNumber: string,
                                    currentUser: Option<string>, now: int, addBooking: Outcome, readRoom: Outcome,
                                    updateRoom: Outcome, announcementsFetch: Outcome)
      reads this, db
    {
      if currentUser.None? then
        // No signed-in user: the screen is left at Loading.
        uiState == Loading && db.bookings == old(db.bookings) && db.rooms == old(db.rooms) && FlowUnchanged()
      else if addBooking.Failed? then
        && uiState == Error("Failed to book room: " + MessageText(addBooking.message))
        && db.bookings == old(db.bookings) && db.rooms == old(db.rooms) && FlowUnchanged()
      else
        var booking := BookingDoc(currentUser.value, Some(hostelName), Some(floorName), Some(roomNumber), now, true);
        var docs := FloorRooms(old(db.rooms), (hostelName, floorName));
        // From here on the booking stays written, whatever happens next.
        && db.bookings == old(db.bookings) + [booking]
        && if readRoom.Failed? || updateRoom.Failed? then
             && uiState == Error("Failed to book room: " + MessageText(
                  if readRoom.Failed? then readRoom.message else updateRoom.message))
             && db.rooms == old(db.rooms) && FlowUnchanged()
           else
             && db.rooms == old(db.rooms)[(hostelName, floorName) :=
                  WithCapacity(docs, roomId, NextCapacity(FindRoom(docs, roomId)))]
             && userRoomInfo == Some(RoomInfo(hostelName, floorName, roomNumber))
             && hostelAnnouncements == AnnouncementsAfter(old(db.announcements), hostelName, announcementsFetch)
             && selectedHostel == None && selectedFloor == None && !showRoomList
             && uiState == RoomBooked
    }

    /** Paying for a plan books the given room; the plan size plays no part. */
    method ProcessPayment(roomId: string, roomNumber: string, roomType: int, currentUser: Option<string>, now: int,
                          addBooking: Outcome, readRoom: Outcome, updateRoom: Outcome, announcementsFetch: Outcome)
      requires db.Valid()
      requires selectedHostel.Some? && selectedFloor.Some?
        && FindRoom(FloorRooms(db.rooms, (selectedHostel.value, selectedFloor.value)), roomId).None?
        ==> updateRoom.Failed?
      modifies this`uiState, this`userRoomInfo, this`hostelAnnouncements, this`selectedHostel,
               this`selectedFloor, this`showRoomList, db`bookings, db`rooms
      ensures db.Valid()
      ensures BookRoomEffect(roomId, roomNumber, currentUser, now, addBooking, readRoom, updateRoom, announcementsFetch)
    {
      BookRoom(roomId, roomNumber, currentUser, now, addBooking, readRoom, updateRoom, announcementsFetch);
    }

    method UpdateComplaintTitle(title: string)
      modifies this`complaintTitle
      ensures complaintTitle == title
    {
      complaintTitle := title;
    }

    method UpdateComplaintMessage(message: string)
      modifies this`complaintMessage
      ensures complaintMessage == message
    {
      complaintMessage := message;
    }

    /** Files a complaint about the booked room with status "pending" and clears
        the form. A blank title or message, no signed-in user, no booking or a
        failed write leaves everything as it was. */
    method SubmitComplaint(currentUser: Option<string>, now: int, addComplaint: Outcome)
      modifies this`complaintTitle, this`complaintMessage, db`complaints
      ensures
        if IsBlank(old(complaintTitle)) || IsBlank(old(complaintMessage))
           || currentUser.None? || userRoomInfo.None? || addComplaint.Failed? then
          && complaintTitle == old(complaintTitle) && complaintMessage == old(complaintMessage)
          && db.complaints == old(db.complaints)
        else
          && db.complaints == old(db.complaints) + [ComplaintDoc(currentUser.value,
               userRoomInfo.value.hostelName, userRoomInfo.value.roomNumber,
               old(complaintTitle), old(complaintMessage), now, "pending")]
          && complaintTitle == "" && complaintMessage == ""
    {
      if IsBlank(complaintTitle) || IsBlank(complaintMessage) {
        return;
      }
      if currentUser.None? || userRoomInfo.None? {
        return;
      }
      var complaint := ComplaintDoc(currentUser.value, userRoomInfo.value.hostelName,
                                    userRoomInfo.value.roomNumber, complaintTitle, complaintMessage, now, "pending");
      if addComplaint.Failed? {
        return;
      }
      db.complaints := db.complaints + [complaint];
      complaintTitle := "";
      complaintMessage := "";
    }
  }

  /** The room list after a room query: the kept rooms, or the sample rooms when
      the query failed. */
  function RoomsAfterFetch(docs: seq<RoomDoc>, fetch: Outcome): (rooms: seq<RoomData>)
    ensures fetch.Failed? ==> rooms == SampleRooms
    ensures fetch.Ok? ==> rooms == KeptRooms(docs) && |rooms| <= |docs|
  {
    if fetch.Failed? then SampleRooms else KeptRooms(docs)
  }
}
