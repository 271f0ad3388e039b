/** The room screen: the two payment-plan buttons, the list of bookable rooms
    and the beds-left figure on each room card. */
module RoomSelection {
  import opened Collections
  import opened Ints
  import opened HostelModel

  /** A room a plan of `size` students per room may book. */
  predicate OffersPlan(r: RoomData, size: int) {
    r.maxCapacity == size && r.available
  }

  /** A plan button is enabled when some room offers that plan. */
  predicate PlanEnabled(rooms: seq<RoomData>, size: int) {
    exists r | r in rooms :: OffersPlan(r, size)
  }

  /** What a plan button reports to the screen: room id, room number, plan size. */
  datatype PaymentRequest = PaymentRequest(roomId: string, roomNumber: string, roomType: int)

  /** Clicking the plan button for `size`: the first room offering that plan, or
      nothing when there is none. */
  function PlanClick(rooms: seq<RoomData>, size: int): (req: Option<PaymentRequest>)
    ensures req.Some? <==> PlanEnabled(rooms, size)
    ensures req.Some? ==> req.value.roomType == size
    ensures req.Some? ==> exists r | r in rooms ::
      OffersPlan(r, size) && r.id == req.value.roomId && r.number == req.value.roomNumber
  {
    match FirstOrNull(rooms, r => OffersPlan(r, size))
    case Some(r) => Some(PaymentRequest(r.id, r.number, size))
    case None => None
  }

  /** The plan button picks the earliest room offering the plan. */
  lemma PlanClickPicksFirst(rooms: seq<RoomData>, size: int)
    requires PlanEnabled(rooms, size)
    ensures exists i | 0 <= i < |rooms| ::
      && OffersPlan(rooms[i], size)
      && PlanClick(rooms, size) == Some(PaymentRequest(rooms[i].id, rooms[i].number, size))
      && forall j | 0 <= j < i :: !OffersPlan(rooms[j], size)
  {
    var p := r => OffersPlan(r, size);
    FirstOrNullIsFirst(rooms, p);
    var i :| 0 <= i < |rooms| && rooms[i] == FirstOrNull(rooms, p).value && forall j | 0 <= j < i :: !p(rooms[j]);
    assert OffersPlan(rooms[i], size);
  }

  /** The price the screen quotes for a plan: 600 for four in a room, 900 otherwise. */
  function PlanPrice(roomType: int): (price: nat)
    ensures roomType == 4 ==> price == 600
    ensures roomType != 4 ==> price == 900
  {
    if roomType == 4 then 600 else 900
  }

  /** The sharing plan costs less than the two-in-a-room plan. */
  lemma SharingIsCheaper()
    ensures PlanPrice(4) < PlanPrice(2)
  {
  }

  predicate IsAvailable(r: RoomData) {
    r.available
  }

  /** The rooms the list shows: those flagged available, in order. */
  function ListedRooms(rooms: seq<RoomData>): (listed: seq<RoomData>)
    ensures forall r | r in listed :: r in rooms && r.available
  {
    Filter(rooms, IsAvailable)
  }

  /** The list shows every available room and no other, keeping the input order. */
  lemma ListedRoomsExactly(rooms: seq<RoomData>, more: seq<RoomData>, r: RoomData)
    ensures r in ListedRooms(rooms) <==> r in rooms && r.available
    ensures ListedRooms(rooms + more) == ListedRooms(rooms) + ListedRooms(more)
  {
    FilterMembership(rooms, IsAvailable, r);
    FilterConcat(rooms, more, IsAvailable);
  }

  /** Any room a plan button books is also one the room list shows. */
  lemma PlanRoomIsListed(rooms: seq<RoomData>, size: int)
    requires PlanEnabled(rooms, size)
    ensures exists r | r in ListedRooms(rooms) ::
      r.id == PlanClick(rooms, size).value.roomId && r.number == PlanClick(rooms, size).value.roomNumber
  {
    var r :| r in rooms && OffersPlan(r, size) && r.id == PlanClick(rooms, size).value.roomId
             && r.number == PlanClick(rooms, size).value.roomNumber;
    FilterMembership(rooms, IsAvailable, r);
  }

  /** Beds shown as free, `maxCapacity - capacity` in 32-bit arithmetic. */
  function BedsLeft(capacity: Int32, maxCapacity: Int32): (beds: Int32)
    ensures MinInt32 <= maxCapacity - capacity <= MaxInt32 ==> beds == maxCapacity - capacity
    ensures (maxCapacity - capacity - beds) % TwoTo32 == 0
    ensures 0 <= capacity < maxCapacity ==> beds > 0
  {
    ToInt32(maxCapacity - capacity)
  }

  /** One room card: its number, the beds-left figure, the room size, and the
      (id, number) pair that choosing it passes on. */
  datatype RoomCard = RoomCard(number: string, bedsLeft: Int32, maxCapacity: Int32, selects: (string, string))

  function CardFor(r: RoomData): RoomCard {
    RoomCard(r.number, BedsLeft(r.capacity, r.maxCapacity), r.maxCapacity, (r.id, r.number))
  }

  /** The room cards, one per available room in order. */
  function RoomCards(rooms: seq<RoomData>): (cards: seq<RoomCard>)
    ensures |cards| == |ListedRooms(rooms)|
    ensures forall i | 0 <= i < |cards| ::
      cards[i].selects == (ListedRooms(rooms)[i].id, ListedRooms(rooms)[i].number)
  {
    var listed := ListedRooms(rooms);
    seq(|listed|, i requires 0 <= i < |listed| => CardFor(listed[i]))
  }

  /** What the room screen shows. */
  datatype RoomsView =
    | NoRoomsAvailable
    | RoomsAvailableContent(fourEnabled: bool, twoEnabled: bool, cards: seq<RoomCard>)

  /** An empty list shows the "no rooms" view; otherwise the plans and the cards. */
  function RoomsViewFor(rooms: seq<RoomData>): (v: RoomsView)
    ensures v.NoRoomsAvailable? <==> rooms == []
    ensures v.RoomsAvailableContent? ==>
      v.fourEnabled == PlanEnabled(rooms, 4) && v.twoEnabled == PlanEnabled(rooms, 2)
      && v.cards == RoomCards(rooms)
  {
    if rooms == [] then NoRoomsAvailable
    else RoomsAvailableContent(PlanEnabled(rooms, 4), PlanEnabled(rooms, 2), RoomCards(rooms))
  }

  /** With the fallback rooms, both plan buttons are enabled and pick rooms 12 and 16. */
  lemma SampleRoomsEnablePlans()
    ensures RoomsViewFor(SampleRooms) == RoomsAvailableContent(true, true, RoomCards(SampleRooms))
    ensures PlanClick(SampleRooms, 4) == Some(PaymentRequest("1", "12", 4))
    ensures PlanClick(SampleRooms, 2) == Some(PaymentRequest("3", "16", 2))
  {
    assert OffersPlan(SampleRooms[0], 4);
    assert OffersPlan(SampleRooms[2], 2);
  }
}
