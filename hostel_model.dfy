/** The hostel data records and the built-in fallback data. */
module HostelModel {
  import opened Ints

  /** One room as the booking screens show it. `capacity` counts the current
      occupants; `maxCapacity` is how many the room holds. */
  datatype RoomData = RoomData(
    id: string,
    number: string,
    capacity: Int32,
    maxCapacity: Int32,
    available: bool)

  /** Where a student is booked. */
  datatype RoomInfo = RoomInfo(hostelName: string, floor: string, roomNumber: string)

  datatype HostelAnnouncement = HostelAnnouncement(title: string, message: string)

  /** The rooms shown when the room query fails. */
  const SampleRooms: seq<RoomData> := [
    RoomData("1", "12", 2, 4, true),
    RoomData("2", "14", 3, 4, true),
    RoomData("3", "16", 0, 2, true),
    RoomData("4", "18", 1, 2, true)
  ]

  /** The announcements shown when none can be fetched. */
  const SampleAnnouncements: seq<HostelAnnouncement> := [
    HostelAnnouncement("Emergency meeting", "To GF"),
    HostelAnnouncement("Hall week", "Hall week celebration kicks off this Sunday"),
    HostelAnnouncement("Cleaning", "We will be cleaning the hostel this weekend")
  ]

  /** Every sample room has a free bed and is flagged available. */
  lemma SampleRoomsHaveSpace()
    ensures forall r | r in SampleRooms :: r.capacity < r.maxCapacity && r.available
  {
  }

  /** Sample rooms are told apart by id and by number. */
  lemma SampleRoomsDistinct()
    ensures forall i, j | 0 <= i < j < |SampleRooms| ::
      SampleRooms[i].id != SampleRooms[j].id && SampleRooms[i].number != SampleRooms[j].number
  {
  }

  /** Sample rooms come in the two sizes the payment plans offer, and both occur. */
  lemma SampleRoomSizes()
    ensures forall r | r in SampleRooms :: r.maxCapacity == 2 || r.maxCapacity == 4
    ensures exists r | r in SampleRooms :: r.maxCapacity == 4
    ensures exists r | r in SampleRooms :: r.maxCapacity == 2
  {
    assert SampleRooms[0].maxCapacity == 4;
    assert SampleRooms[2].maxCapacity == 2;
  }

  lemma SampleAnnouncementCount()
    ensures |SampleAnnouncements| == 3
  {
  }
}
